/** The event trigger: an ordered registry of trigger rules that routes SSO
    events to workflow executions, with an append-only event history and a
    correlation map from event ids to the execution ids they started. */
module Triggers {
  import opened Base
  import opened WorkflowsConnector
  import opened Executor

  /** The Okta event types the default rules listen to. */
  const LoginFailure := "user.authentication.sso.login.failure"
  const UserCreated := "user.lifecycle.create"
  const UserActivated := "user.lifecycle.activate"
  const UserDeactivated := "user.lifecycle.deactivate"
  const PasswordExpiring := "user.password.expiring"
  const AppAccessGranted := "application.user_membership.add"

  datatype SsoEvent = SsoEvent(
    eventId: string,
    eventType: string,
    timestamp: string,
    userId: Option<string>,
    userEmail: Option<string>,
    clientIp: Option<string>,
    userAgent: Option<string>,
    metadata: Dict)

  /** What a rule's condition does with an event: holds, fails, or raises. */
  datatype Verdict = Holds | Fails | Raises(message: string)

  datatype TriggerRule = TriggerRule(
    ruleId: string,
    eventTypes: seq<string>,
    flowId: string,
    condition: Option<SsoEvent -> Verdict>,
    transformer: Option<SsoEvent -> Result<Dict, string>>,
    enabled: bool)

  // ---------------------------------------------------------------------
  // Matching
  // ---------------------------------------------------------------------

  /** Whether a rule takes an event: it must be enabled and list the event's
      type, and then its condition (if any) decides, possibly by raising. */
  function Admits(rule: TriggerRule, event: SsoEvent): Verdict {
    if !rule.enabled || event.eventType !in rule.eventTypes then Fails
    else
      match rule.condition
      case None => Holds
      case Some(condition) => condition(event)
  }

  function AdmittedBy(event: SsoEvent): TriggerRule -> bool {
    (rule: TriggerRule) => Admits(rule, event) == Holds
  }

  /** The rules that take the event, in registration order; a condition that
      raises aborts the whole match. */
  function Matching(rules: seq<TriggerRule>, event: SsoEvent): (r: Result<seq<TriggerRule>, string>)
    ensures r.Success? ==> |r.value| <= |rules|
    decreases |rules|
  {
    if rules == [] then Success([])
    else
      var last := rules[|rules| - 1];
      match Matching(rules[..|rules| - 1], event)
      case Failure(m) => Failure(m)
      case Success(prefix) =>
        match Admits(last, event)
        case Holds => Success(prefix + [last])
        case Fails => Success(prefix)
        case Raises(m) => Failure(m)
  }

  /** When no condition raises, the match is exactly the rules that are
      enabled, list the event type and whose condition holds, in order. */
  lemma {:induction false} MatchingIsFilter(rules: seq<TriggerRule>, event: SsoEvent)
    requires forall i :: 0 <= i < |rules| ==> !Admits(rules[i], event).Raises?
    ensures Matching(rules, event) == Success(Filter(rules, AdmittedBy(event)))
    decreases |rules|
  {
    if rules != [] {
      var init := rules[..|rules| - 1];
      var last := rules[|rules| - 1];
      assert forall i :: 0 <= i < |init| ==> init[i] == rules[i];
      MatchingIsFilter(init, event);
      FilterAppend(init, [last], AdmittedBy(event));
      assert init + [last] == rules;
      assert AdmittedBy(event)(last) == (Admits(last, event) == Holds);
      assert Filter([last], AdmittedBy(event)) == if Admits(last, event) == Holds then [last] else [];
      assert !Admits(last, event).Raises?;
      var prefix := Filter(init, AdmittedBy(event));
      assert Filter(rules, AdmittedBy(event)) == prefix + Filter([last], AdmittedBy(event));
      if Admits(last, event) == Holds {
        assert Matching(rules, event) == Success(prefix + [last]);
      } else {
        assert prefix + [] == prefix;
        assert Matching(rules, event) == Success(prefix);
      }
    }
  }

  /** Once a prefix of the rules raises, the whole match raises the same. */
  lemma {:induction false} MatchingPrefixFails(rules: seq<TriggerRule>, n: nat, event: SsoEvent)
    requires n <= |rules|
    requires Matching(rules[..n], event).Failure?
    ensures Matching(rules, event) == Matching(rules[..n], event)
    decreases |rules|
  {
    if n == |rules| {
      assert rules[..n] == rules;
    } else {
      var init := rules[..|rules| - 1];
      assert init[..n] == rules[..n];
      MatchingPrefixFails(init, n, event);
    }
  }

  /** When only rule `k` lists the event type, the match is decided by that
      rule alone. */
  lemma {:induction false} MatchingOnlyRule(rules: seq<TriggerRule>, k: nat, event: SsoEvent)
    requires k < |rules|
    requires forall i :: 0 <= i < |rules| && i != k ==> event.eventType !in rules[i].eventTypes
    ensures Matching(rules, event) ==
            match Admits(rules[k], event)
            case Holds => Success([rules[k]])
            case Fails => Success([])
            case Raises(m) => Failure(m)
    decreases |rules|
  {
    var init := rules[..|rules| - 1];
    assert forall i :: 0 <= i < |init| ==> init[i] == rules[i];
    if k < |rules| - 1 {
      MatchingOnlyRule(init, k, event);
    } else {
      MatchingNoRule(init, event);
      assert [] + [rules[k]] == [rules[k]];
    }
  }

  /** When no rule lists the event type, nothing matches. */
  lemma {:induction false} MatchingNoRule(rules: seq<TriggerRule>, event: SsoEvent)
    requires forall i :: 0 <= i < |rules| ==> event.eventType !in rules[i].eventTypes
    ensures Matching(rules, event) == Success([])
    decreases |rules|
  {
    if rules != [] {
      var init := rules[..|rules| - 1];
      assert forall i :: 0 <= i < |init| ==> init[i] == rules[i];
      MatchingNoRule(init, event);
    }
  }

  /** The match fails exactly when some enabled rule listing the event type
      has a condition that raises. */
  lemma {:induction false} MatchingFails(rules: seq<TriggerRule>, event: SsoEvent)
    ensures Matching(rules, event).Failure? <==> exists i :: 0 <= i < |rules| && Admits(rules[i], event).Raises?
    decreases |rules|
  {
    if rules != [] {
      var init := rules[..|rules| - 1];
      MatchingFails(init, event);
      assert forall i :: 0 <= i < |init| ==> init[i] == rules[i];
    }
  }

  // ---------------------------------------------------------------------
  // Flow input
  // ---------------------------------------------------------------------

  /** The input built for a rule without a transformer. */
  function DefaultInput(event: SsoEvent): (d: Dict)
    ensures d.Keys == {"event_id", "event_type", "user_id", "user_email", "timestamp"}
    ensures d["event_id"] == Str(event.eventId) && d["event_type"] == Str(event.eventType)
    ensures d["user_id"] == OptStr(event.userId) && d["user_email"] == OptStr(event.userEmail)
    ensures d["timestamp"] == Str(event.timestamp)
  {
    map["event_id" := Str(event.eventId),
        "event_type" := Str(event.eventType),
        "user_id" := OptStr(event.userId),
        "user_email" := OptStr(event.userEmail),
        "timestamp" := Str(event.timestamp)]
  }

  /** The flow input for a rule: its transformer's output (which may raise),
      or the default input. */
  function Transform(event: SsoEvent, rule: TriggerRule): (r: Result<Dict, string>)
    ensures rule.transformer.None? ==> r == Success(DefaultInput(event))
    ensures rule.transformer.Some? ==> r == rule.transformer.value(event)
  {
    match rule.transformer
    case Some(t) => t(event)
    case None => Success(DefaultInput(event))
  }

  // ---------------------------------------------------------------------
  // Dispatch, as a specification
  // ---------------------------------------------------------------------

  /** One matching rule's execution: transform, then execute and wait. Either
      step may raise, which drops the rule. */
  function RuleAttempt(b: Backend, timeout: int, rule: TriggerRule, event: SsoEvent, now: string, polls: nat)
    : Result<ExecutionResult, string>
  {
    match Transform(event, rule)
    case Failure(m) => Failure(m)
    case Success(input) =>
      match Attempt(b, rule.flowId, input, timeout, true, now, polls)
      case Success(r) => Success(r)
      case Failure(e) => Failure(ErrorText(e))
  }

  /** The result of an attempt that returned, as a list of zero or one. */
  function Returned(a: Result<ExecutionResult, string>): (r: seq<ExecutionResult>)
    ensures a.Success? ==> r == [a.value]
    ensures a.Failure? ==> r == []
  {
    if a.Success? then [a.value] else []
  }

  /** `RuleAttempt` for each rule of an event. */
  function Attempter(b: Backend, timeout: int, event: SsoEvent, now: string, polls: nat)
    : TriggerRule -> Result<ExecutionResult, string>
  {
    rule => RuleAttempt(b, timeout, rule, event, now, polls)
  }

  /** The results of the first `n` matching rules: one per rule whose
      execution returned, in rule order. */
  function Dispatched(b: Backend, timeout: int, ms: seq<TriggerRule>, event: SsoEvent, now: string, polls: nat, n: nat)
    : (rs: seq<ExecutionResult>)
    requires n <= |ms|
    ensures |rs| <= n
  {
    Successes(ms[..n], Attempter(b, timeout, event, now, polls))
  }

  /** One more matching rule adds its result exactly when its execution
      returns. */
  lemma DispatchedStep(b: Backend, timeout: int, ms: seq<TriggerRule>, event: SsoEvent, now: string, polls: nat, j: nat)
    requires j < |ms|
    ensures Dispatched(b, timeout, ms, event, now, polls, j + 1) ==
            Dispatched(b, timeout, ms, event, now, polls, j) + Returned(RuleAttempt(b, timeout, ms[j], event, now, polls))
  {
    assert ms[..j + 1][..j] == ms[..j];
  }

  /** When every matching rule's execution returns, there is one result per
      rule. */
  lemma DispatchedAll(b: Backend, timeout: int, ms: seq<TriggerRule>, event: SsoEvent, now: string, polls: nat, n: nat)
    requires n <= |ms|
    requires forall i :: 0 <= i < n ==> RuleAttempt(b, timeout, ms[i], event, now, polls).Success?
    ensures |Dispatched(b, timeout, ms, event, now, polls, n)| == n
    ensures forall i :: 0 <= i < n ==>
              Dispatched(b, timeout, ms, event, now, polls, n)[i] == RuleAttempt(b, timeout, ms[i], event, now, polls).value
  {
    SuccessesAll(ms[..n], Attempter(b, timeout, event, now, polls));
  }

  /** The callback calls made while running one matching rule: none when its
      transformer raised. */
  function RuleFirings(b: Backend, hooks: Hooks, rule: TriggerRule, event: SsoEvent, now: string, polls: nat)
    : seq<Firing>
  {
    match Transform(event, rule)
    case Failure(_) => []
    case Success(input) => FlowFirings(b, hooks, rule.flowId, input, true, now, polls)
  }

  /** The callback calls made while dispatching the first `n` matching rules. */
  function DispatchFirings(b: Backend, hooks: Hooks, timeout: int, ms: seq<TriggerRule>, event: SsoEvent,
                           now: string, polls: nat, n: nat): seq<Firing>
    requires n <= |ms|
  {
    if n == 0 then []
    else DispatchFirings(b, hooks, timeout, ms, event, now, polls, n - 1) + RuleFirings(b, hooks, ms[n - 1], event, now, polls)
  }

  /** Running one more matching rule appends its callback calls. */
  lemma DispatchFiringsStep(before: seq<Firing>, b: Backend, hooks: Hooks, timeout: int, ms: seq<TriggerRule>,
                            event: SsoEvent, now: string, polls: nat, n: nat)
    requires 0 < n <= |ms|
    ensures before + DispatchFirings(b, hooks, timeout, ms, event, now, polls, n) ==
            before + DispatchFirings(b, hooks, timeout, ms, event, now, polls, n - 1) +
            RuleFirings(b, hooks, ms[n - 1], event, now, polls)
  {
  }

  /** What `process_event` returns or raises for an event under `rules`. */
  function EventOutcome(b: Backend, timeout: int, rules: seq<TriggerRule>, event: SsoEvent, now: string, polls: nat)
    : (r: Result<seq<ExecutionResult>, string>)
    ensures r.Failure? <==> Matching(rules, event).Failure?
    ensures r.Success? ==> |r.value| <= |Matching(rules, event).value|
  {
    match Matching(rules, event)
    case Failure(m) => Failure(m)
    case Success(ms) => Success(Dispatched(b, timeout, ms, event, now, polls, |ms|))
  }

  function EventFirings(b: Backend, hooks: Hooks, timeout: int, rules: seq<TriggerRule>, event: SsoEvent,
                        now: string, polls: nat): seq<Firing>
  {
    match Matching(rules, event)
    case Failure(_) => []
    case Success(ms) => DispatchFirings(b, hooks, timeout, ms, event, now, polls, |ms|)
  }

  function ExecutionIds(results: seq<ExecutionResult>): (ids: seq<string>)
    ensures |ids| == |results|
    ensures forall i :: 0 <= i < |ids| ==> ids[i] == results[i].executionId
  {
    seq(|results|, i requires 0 <= i < |results| => results[i].executionId)
  }

  /** The correlation map after an event: its entry is replaced by the new
      execution ids, and only when there is at least one. */
  function Correlate(m: map<string, seq<string>>, eventId: string, results: seq<ExecutionResult>)
    : (r: map<string, seq<string>>)
    ensures results == [] ==> r == m
    ensures results != [] ==> eventId in r && r[eventId] == ExecutionIds(results)
    ensures forall k :: k != eventId ==> (k in r <==> k in m) && (k in m ==> r[k] == m[k])
  {
    if |results| > 0 then m[eventId := ExecutionIds(results)] else m
  }

  /** The results an event contributes to a batch: none when it raised. */
  function EventResults(o: Result<seq<ExecutionResult>, string>): seq<ExecutionResult> {
    if o.Success? then o.value else []
  }

  // ---------------------------------------------------------------------
  // Batches, as a specification
  // ---------------------------------------------------------------------

  /** The map `process_events_batch` returns after the first `n` events. */
  function BatchMap(b: Backend, timeout: int, rules: seq<TriggerRule>, events: seq<SsoEvent>, now: string,
                    polls: nat, n: nat): map<string, seq<ExecutionResult>>
    requires n <= |events|
  {
    if n == 0 then map[]
    else
      BatchMap(b, timeout, rules, events, now, polls, n - 1)[
        events[n - 1].eventId := EventResults(EventOutcome(b, timeout, rules, events[n - 1], now, polls))]
  }

  /** The batch map has one key per event id. */
  lemma {:induction false} BatchMapKeys(b: Backend, timeout: int, rules: seq<TriggerRule>, events: seq<SsoEvent>,
                                        now: string, polls: nat, n: nat)
    requires n <= |events|
    ensures BatchMap(b, timeout, rules, events, now, polls, n).Keys == set i | 0 <= i < n :: events[i].eventId
  {
    if n > 0 {
      BatchMapKeys(b, timeout, rules, events, now, polls, n - 1);
      assert (set i | 0 <= i < n :: events[i].eventId) ==
             (set i | 0 <= i < n - 1 :: events[i].eventId) + {events[n - 1].eventId};
    }
  }

  /** An event whose id no later event of the batch repeats keeps its own
      results in the batch map: for a repeated id, the last event wins. */
  lemma {:induction false} BatchMapLastWins(b: Backend, timeout: int, rules: seq<TriggerRule>, events: seq<SsoEvent>,
                                            now: string, polls: nat, n: nat, i: nat)
    requires i < n <= |events|
    requires forall j :: i < j < n ==> events[j].eventId != events[i].eventId
    ensures events[i].eventId in BatchMap(b, timeout, rules, events, now, polls, n)
    ensures BatchMap(b, timeout, rules, events, now, polls, n)[events[i].eventId] ==
            EventResults(EventOutcome(b, timeout, rules, events[i], now, polls))
  {
    if i < n - 1 {
      BatchMapLastWins(b, timeout, rules, events, now, polls, n - 1, i);
    }
  }

  function BatchCorrelation(m0: map<string, seq<string>>, b: Backend, timeout: int, rules: seq<TriggerRule>,
                            events: seq<SsoEvent>, now: string, polls: nat, n: nat): map<string, seq<string>>
    requires n <= |events|
  {
    if n == 0 then m0
    else
      var previous := BatchCorrelation(m0, b, timeout, rules, events, now, polls, n - 1);
      match EventOutcome(b, timeout, rules, events[n - 1], now, polls)
      case Success(rs) => Correlate(previous, events[n - 1].eventId, rs)
      case Failure(_) => previous
  }

  function BatchExecutions(b: Backend, timeout: int, rules: seq<TriggerRule>, events: seq<SsoEvent>, now: string,
                           polls: nat, n: nat): seq<ExecutionResult>
    requires n <= |events|
  {
    if n == 0 then []
    else
      BatchExecutions(b, timeout, rules, events, now, polls, n - 1) +
      EventResults(EventOutcome(b, timeout, rules, events[n - 1], now, polls))
  }

  function BatchEventFirings(b: Backend, hooks: Hooks, timeout: int, rules: seq<TriggerRule>, events: seq<SsoEvent>,
                             now: string, polls: nat, n: nat): seq<Firing>
    requires n <= |events|
  {
    if n == 0 then []
    else
      BatchEventFirings(b, hooks, timeout, rules, events, now, polls, n - 1) +
      EventFirings(b, hooks, timeout, rules, events[n - 1], now, polls)
  }

  /** One more event of a batch: its correlation, its executions and its
      callback calls follow those of the events before it. */
  lemma BatchEventStep(m0: map<string, seq<string>>, history0: seq<ExecutionResult>, fired0: seq<Firing>, b: Backend,
                  hooks: Hooks, timeout: int, rules: seq<TriggerRule>, events: seq<SsoEvent>, now: string, polls: nat,
                  i: nat)
    requires i < |events|
    ensures var o := EventOutcome(b, timeout, rules, events[i], now, polls);
            var previous := BatchCorrelation(m0, b, timeout, rules, events, now, polls, i);
            BatchCorrelation(m0, b, timeout, rules, events, now, polls, i + 1) ==
              (if o.Success? then Correlate(previous, events[i].eventId, o.value) else previous)
    ensures history0 + BatchExecutions(b, timeout, rules, events, now, polls, i + 1) ==
            history0 + BatchExecutions(b, timeout, rules, events, now, polls, i) +
            EventResults(EventOutcome(b, timeout, rules, events[i], now, polls))
    ensures fired0 + BatchEventFirings(b, hooks, timeout, rules, events, now, polls, i + 1) ==
            fired0 + BatchEventFirings(b, hooks, timeout, rules, events, now, polls, i) +
            EventFirings(b, hooks, timeout, rules, events[i], now, polls)
  {
    var executions := BatchExecutions(b, timeout, rules, events, now, polls, i);
    var results := EventResults(EventOutcome(b, timeout, rules, events[i], now, polls));
    assert BatchExecutions(b, timeout, rules, events, now, polls, i + 1) == executions + results;
    assert history0 + (executions + results) == history0 + executions + results;
    var firings := BatchEventFirings(b, hooks, timeout, rules, events, now, polls, i);
    var calls := EventFirings(b, hooks, timeout, rules, events[i], now, polls);
    assert BatchEventFirings(b, hooks, timeout, rules, events, now, polls, i + 1) == firings + calls;
    assert fired0 + (firings + calls) == fired0 + firings + calls;
  }

  // ---------------------------------------------------------------------
  // Default rules
  // ---------------------------------------------------------------------

  function MfaNotEnrolled(event: SsoEvent): Verdict {
    if Get(event.metadata, "reason") == Str("mfa_not_enrolled") then Holds else Fails
  }

  /** The five rules a new trigger starts with, in registration order. */
  function DefaultRules(): seq<TriggerRule> {
    [ TriggerRule("rule_new_hire_onboarding", [UserCreated, UserActivated], "flow_new_hire_onboarding", None,
                  Some((e: SsoEvent) => Success(map["user_id" := OptStr(e.userId),
                                                    "user_email" := OptStr(e.userEmail),
                                                    "event_timestamp" := Str(e.timestamp)])), true),
      TriggerRule("rule_offboarding", [UserDeactivated], "flow_offboarding", None,
                  Some((e: SsoEvent) => Success(map["user_id" := OptStr(e.userId),
                                                    "user_email" := OptStr(e.userEmail),
                                                    "deactivation_time" := Str(e.timestamp)])), true),
      TriggerRule("rule_mfa_remediation", [LoginFailure], "flow_mfa_remediation", Some(MfaNotEnrolled),
                  Some((e: SsoEvent) => Success(map["user_id" := OptStr(e.userId),
                                                    "user_email" := OptStr(e.userEmail),
                                                    "failure_reason" := Get(e.metadata, "reason")])), true),
      TriggerRule("rule_password_expiry", [PasswordExpiring], "flow_password_expiry", None,
                  Some((e: SsoEvent) => Success(map["user_id" := OptStr(e.userId),
                                                    "user_email" := OptStr(e.userEmail),
                                                    "expiry_date" := Get(e.metadata, "expiry_date")])), true),
      TriggerRule("rule_access_request", [AppAccessGranted], "flow_access_request", None,
                  Some((e: SsoEvent) => Success(map["user_id" := OptStr(e.userId),
                                                    "user_email" := OptStr(e.userEmail),
                                                    "app_id" := Get(e.metadata, "app_id"),
                                                    "app_name" := Get(e.metadata, "app_name")])), true) ]
  }

  /** Of the default rules, a login failure is taken only by the MFA
      remediation rule, and only when its reason is "mfa_not_enrolled". */
  lemma MfaRuleMatches(event: SsoEvent)
    requires event.eventType == LoginFailure
    ensures Matching(DefaultRules(), event) ==
            Success(if Get(event.metadata, "reason") == Str("mfa_not_enrolled") then [DefaultRules()[2]] else [])
  {
    var rules := DefaultRules();
    assert event.eventType !in rules[0].eventTypes;
    assert event.eventType !in rules[1].eventTypes;
    assert event.eventType !in rules[3].eventTypes;
    assert event.eventType !in rules[4].eventTypes;
    MatchingOnlyRule(rules, 2, event);
  }

  // ---------------------------------------------------------------------
  // Queries
  // ---------------------------------------------------------------------

  predicate EventSelected(eventType: Option<string>, userId: Option<string>, e: SsoEvent) {
    (IsSet(eventType) ==> e.eventType == eventType.value) && (IsSet(userId) ==> e.userId == userId)
  }

  function TypeIs(eventType: string): SsoEvent -> bool {
    (e: SsoEvent) => e.eventType == eventType
  }

  function UserIs(userId: Option<string>): SsoEvent -> bool {
    (e: SsoEvent) => e.userId == userId
  }

  function Selector(eventType: Option<string>, userId: Option<string>): SsoEvent -> bool {
    (e: SsoEvent) => EventSelected(eventType, userId, e)
  }

  /** The two filters of `get_event_history`, each applied only when its
      argument is given. */
  function SelectEvents(history: seq<SsoEvent>, eventType: Option<string>, userId: Option<string>): seq<SsoEvent> {
    var byType := if IsSet(eventType) then Filter(history, TypeIs(eventType.value)) else history;
    if IsSet(userId) then Filter(byType, UserIs(userId)) else byType
  }

  /** Filtering by type and then by user keeps exactly the events that pass
      both filters, in history order. */
  lemma SelectedInOrder(history: seq<SsoEvent>, eventType: Option<string>, userId: Option<string>)
    ensures SelectEvents(history, eventType, userId) == Filter(history, Selector(eventType, userId))
  {
    var selected := Selector(eventType, userId);
    if IsSet(eventType) && IsSet(userId) {
      FilterFilter(history, TypeIs(eventType.value), UserIs(userId), selected);
    } else if IsSet(eventType) {
      FilterCongruent(history, TypeIs(eventType.value), selected);
    } else if IsSet(userId) {
      FilterCongruent(history, UserIs(userId), selected);
    } else {
      FilterAll(history, selected);
    }
  }

  function RuleIdIsNot(ruleId: string): TriggerRule -> bool {
    (r: TriggerRule) => r.ruleId != ruleId
  }

  function IsEnabled(): TriggerRule -> bool {
    (r: TriggerRule) => r.enabled
  }

  class EventTrigger {
    const executor: FlowExecutor
    var rules: seq<TriggerRule>
    var eventHistory: seq<SsoEvent>
    var eventWorkflowMap: map<string, seq<string>>

    constructor(executor: FlowExecutor)
      ensures this.executor == executor
      ensures rules == DefaultRules() && eventHistory == [] && eventWorkflowMap == map[]
    {
      this.executor := executor;
      rules := DefaultRules();
      eventHistory := [];
      eventWorkflowMap := map[];
    }

    /** Appends a rule; ids are not checked for uniqueness. */
    method AddRule(rule: TriggerRule)
      modifies this`rules
      ensures rules == old(rules) + [rule]
    {
      rules := rules + [rule];
    }

    /** Drops every rule with the id, keeping the others in order; reports
        whether any was dropped. */
    method RemoveRule(ruleId: string) returns (removed: bool)
      modifies this`rules
      ensures rules == Filter(old(rules), RuleIdIsNot(ruleId))
      ensures removed <==> exists i :: 0 <= i < |old(rules)| && old(rules)[i].ruleId == ruleId
    {
      var originalCount := |rules|;
      CountAll(rules, RuleIdIsNot(ruleId));
      rules := Filter(rules, RuleIdIsNot(ruleId));
      removed := |rules| < originalCount;
    }

    /** The first rule with the id, if any. */
    method GetRule(ruleId: string) returns (r: Option<TriggerRule>)
      ensures r.None? <==> forall i :: 0 <= i < |rules| ==> rules[i].ruleId != ruleId
      ensures r.Some? ==> exists k :: 0 <= k < |rules| && rules[k] == r.value && rules[k].ruleId == ruleId &&
                                     forall j :: 0 <= j < k ==> rules[j].ruleId != ruleId
    {
      var i := 0;
      while i < |rules|
        invariant 0 <= i <= |rules|
        invariant forall j :: 0 <= j < i ==> rules[j].ruleId != ruleId
      {
        if rules[i].ruleId == ruleId {
          return Some(rules[i]);
        }
        i := i + 1;
      }
      return None;
    }

    function ListRules(enabledOnly: bool): (r: seq<TriggerRule>)
      reads this
      ensures !enabledOnly ==> r == rules
      ensures enabledOnly ==> forall i :: 0 <= i < |r| ==> r[i].enabled && r[i] in rules
      ensures enabledOnly ==> forall i :: 0 <= i < |rules| && rules[i].enabled ==> rules[i] in r
      ensures enabledOnly ==> r == Filter(rules, IsEnabled())
      ensures enabledOnly ==> forall x :: multiset(r)[x] == if x.enabled then multiset(rules)[x] else 0
    {
      FilterMultiset(rules, IsEnabled());
      if enabledOnly then Filter(rules, IsEnabled()) else rules
    }

    /** `_find_matching_rules`. */
    method FindMatchingRules(event: SsoEvent) returns (r: Result<seq<TriggerRule>, string>)
      ensures r == Matching(rules, event)
    {
      var matched := [];
      var i := 0;
      while i < |rules|
        invariant 0 <= i <= |rules|
        invariant Matching(rules[..i], event) == Success(matched)
      {
        var rule := rules[i];
        assert rules[..i + 1][..i] == rules[..i];
        if rule.enabled && event.eventType in rule.eventTypes {
          if rule.condition.None? {
            matched := matched + [rule];
          } else {
            var verdict := rule.condition.value(event);
            if verdict.Raises? {
              MatchingPrefixFails(rules, i + 1, event);
              return Failure(verdict.message);
            }
            if verdict.Holds? {
              matched := matched + [rule];
            }
          }
        }
        i := i + 1;
      }
      assert rules[..i] == rules;
      return Success(matched);
    }

    /** One matching rule: its flow input, then the flow executed and waited
        for. The rule's result when both steps returned, and the message of
        what raised (with the history unchanged) otherwise. */
    method ExecuteRule(rule: TriggerRule, event: SsoEvent, now: string, polls: nat, ghost hooks: Hooks)
      returns (outcome: Result<ExecutionResult, string>)
      requires executor.CurrentHooks() == hooks
      modifies executor`history, executor`fired
      ensures executor.CurrentHooks() == hooks
      ensures outcome == RuleAttempt(executor.backend, executor.defaultTimeout, rule, event, now, polls)
      ensures executor.history == old(executor.history) + Returned(outcome)
      ensures executor.fired == old(executor.fired) + RuleFirings(executor.backend, hooks, rule, event, now, polls)
    {
      var input := Transform(event, rule);
      if input.Failure? {
        return Failure(input.error);
      }
      var a := executor.ExecuteFlow(rule.flowId, Some(input.value), None, true, now, polls);
      if a.Failure? {
        return Failure(ErrorText(a.error));
      }
      return Success(a.value);
    }

    /** Matching rule `j`, run after the ones before it: what it adds to the
        dispatched results and to the callback calls. */
    method DispatchNext(ms: seq<TriggerRule>, j: nat, event: SsoEvent, now: string, polls: nat,
                        ghost before: seq<Firing>, ghost hooks: Hooks)
      returns (outcome: Result<ExecutionResult, string>)
      requires j < |ms| && executor.CurrentHooks() == hooks
      requires executor.fired == before + DispatchFirings(executor.backend, hooks, executor.defaultTimeout, ms, event, now, polls, j)
      modifies executor`history, executor`fired
      ensures executor.CurrentHooks() == hooks
      ensures Dispatched(executor.backend, executor.defaultTimeout, ms, event, now, polls, j + 1) ==
              Dispatched(executor.backend, executor.defaultTimeout, ms, event, now, polls, j) + Returned(outcome)
      ensures executor.history == old(executor.history) + Returned(outcome)
      ensures executor.fired == before + DispatchFirings(executor.backend, hooks, executor.defaultTimeout, ms, event, now, polls, j + 1)
    {
      outcome := ExecuteRule(ms[j], event, now, polls, hooks);
      DispatchedStep(executor.backend, executor.defaultTimeout, ms, event, now, polls, j);
      DispatchFiringsStep(before, executor.backend, hooks, executor.defaultTimeout, ms, event, now, polls, j + 1);
    }

    /** The loop of `process_event` over the matching rules: the results of
        the rules whose execution returned, in rule order, with their
        execution ids. */
    method DispatchRules(ms: seq<TriggerRule>, event: SsoEvent, now: string, polls: nat)
      returns (results: seq<ExecutionResult>, ids: seq<string>)
      modifies executor`history, executor`fired
      ensures results == Dispatched(executor.backend, executor.defaultTimeout, ms, event, now, polls, |ms|)
      ensures ids == ExecutionIds(results)
      ensures executor.history == old(executor.history) + results
      ensures executor.CurrentHooks() == old(executor.CurrentHooks())
      ensures executor.fired == old(executor.fired) +
              DispatchFirings(executor.backend, old(executor.CurrentHooks()), executor.defaultTimeout, ms, event, now, polls, |ms|)
    {
      ghost var b := executor.backend;
      ghost var t := executor.defaultTimeout;
      ghost var hooks := executor.CurrentHooks();
      results := [];
      ids := [];
      var j := 0;
      while j < |ms|
        invariant 0 <= j <= |ms|
        invariant executor.CurrentHooks() == hooks
        invariant results == Dispatched(b, t, ms, event, now, polls, j)
        invariant ids == ExecutionIds(results)
        invariant executor.history == old(executor.history) + results
        invariant executor.fired == old(executor.fired) + DispatchFirings(b, hooks, t, ms, event, now, polls, j)
      {
        var outcome := DispatchNext(ms, j, event, now, polls, old(executor.fired), hooks);
        if outcome.Success? {
          results := results + [outcome.value];
          ids := ids + [outcome.value.executionId];
        }
        j := j + 1;
      }
    }

    /** `process_event`: records the event, then executes the flow of every
        matching rule in order, keeping the results of those that returned
        and correlating their execution ids with the event. */
    method ProcessEvent(event: SsoEvent, now: string, polls: nat) returns (r: Result<seq<ExecutionResult>, string>)
      modifies this`eventHistory, this`eventWorkflowMap, executor`history, executor`fired
      ensures eventHistory == old(eventHistory) + [event]
      ensures r == EventOutcome(executor.backend, executor.defaultTimeout, rules, event, now, polls)
      ensures eventWorkflowMap == if r.Success? then Correlate(old(eventWorkflowMap), event.eventId, r.value)
                                  else old(eventWorkflowMap)
      ensures executor.history == old(executor.history) + EventResults(r)
      ensures executor.CurrentHooks() == old(executor.CurrentHooks())
      ensures executor.fired == old(executor.fired) +
              EventFirings(executor.backend, old(executor.CurrentHooks()), executor.defaultTimeout, rules, event, now, polls)
    {
      eventHistory := eventHistory + [event];
      var matching := FindMatchingRules(event);
      if matching.Failure? {
        return Failure(matching.error);
      }
      var ms := matching.value;
      if |ms| == 0 {
        return Success([]);
      }
      var results, ids := DispatchRules(ms, event, now, polls);
      if |ids| > 0 {
        eventWorkflowMap := eventWorkflowMap[event.eventId := ids];
      }
      return Success(results);
    }

    /** `process_events_batch`: every event in input order; an event whose
        processing raised maps to no results, and later events still run. */
    method ProcessEventsBatch(events: seq<SsoEvent>, now: string, polls: nat)
      returns (resultsMap: map<string, seq<ExecutionResult>>)
      modifies this`eventHistory, this`eventWorkflowMap, executor`history, executor`fired
      ensures resultsMap == BatchMap(executor.backend, executor.defaultTimeout, rules, events, now, polls, |events|)
      ensures eventHistory == old(eventHistory) + events
      ensures eventWorkflowMap == BatchCorrelation(old(eventWorkflowMap), executor.backend, executor.defaultTimeout,
                                                   rules, events, now, polls, |events|)
      ensures executor.history == old(executor.history) +
              BatchExecutions(executor.backend, executor.defaultTimeout, rules, events, now, polls, |events|)
      ensures executor.CurrentHooks() == old(executor.CurrentHooks())
      ensures executor.fired == old(executor.fired) +
              BatchEventFirings(executor.backend, old(executor.CurrentHooks()), executor.defaultTimeout, rules, events, now,
                                polls, |events|)
    {
      ghost var hooks := executor.CurrentHooks();
      resultsMap := map[];
      var i := 0;
      while i < |events|
        invariant 0 <= i <= |events|
        invariant executor.CurrentHooks() == hooks
        invariant resultsMap == BatchMap(executor.backend, executor.defaultTimeout, rules, events, now, polls, i)
        invariant eventHistory == old(eventHistory) + events[..i]
        invariant eventWorkflowMap == BatchCorrelation(old(eventWorkflowMap), executor.backend, executor.defaultTimeout,
                                                       rules, events, now, polls, i)
        invariant executor.history == old(executor.history) +
                  BatchExecutions(executor.backend, executor.defaultTimeout, rules, events, now, polls, i)
        invariant executor.fired == old(executor.fired) +
                  BatchEventFirings(executor.backend, hooks, executor.defaultTimeout, rules, events, now, polls, i)
      {
        var outcome := RunBatchEvent(events, i, now, polls, old(eventHistory), old(eventWorkflowMap),
                                     old(executor.history), old(executor.fired), hooks);
        resultsMap := resultsMap[events[i].eventId := EventResults(outcome)];
        i := i + 1;
      }
      assert events[..i] == events;
    }

    /** Event `i` of a batch, processed after the ones before it. */
    method RunBatchEvent(events: seq<SsoEvent>, i: nat, now: string, polls: nat,
                         ghost events0: seq<SsoEvent>, ghost map0: map<string, seq<string>>,
                         ghost history0: seq<ExecutionResult>, ghost fired0: seq<Firing>, ghost hooks: Hooks)
      returns (outcome: Result<seq<ExecutionResult>, string>)
      requires i < |events| && executor.CurrentHooks() == hooks
      requires eventHistory == events0 + events[..i]
      requires eventWorkflowMap == BatchCorrelation(map0, executor.backend, executor.defaultTimeout, rules, events, now, polls, i)
      requires executor.history == history0 + BatchExecutions(executor.backend, executor.defaultTimeout, rules, events, now, polls, i)
      requires executor.fired == fired0 + BatchEventFirings(executor.backend, hooks, executor.defaultTimeout,
                                                            rules, events, now, polls, i)
      modifies this`eventHistory, this`eventWorkflowMap, executor`history, executor`fired
      ensures executor.CurrentHooks() == hooks
      ensures outcome == EventOutcome(executor.backend, executor.defaultTimeout, rules, events[i], now, polls)
      ensures eventHistory == events0 + events[..i + 1]
      ensures eventWorkflowMap == BatchCorrelation(map0, executor.backend, executor.defaultTimeout, rules, events, now, polls, i + 1)
      ensures executor.history == history0 + BatchExecutions(executor.backend, executor.defaultTimeout, rules, events, now, polls, i + 1)
      ensures executor.fired == fired0 + BatchEventFirings(executor.backend, hooks, executor.defaultTimeout,
                                                           rules, events, now, polls, i + 1)
    {
      BatchEventStep(map0, history0, fired0, executor.backend, hooks, executor.defaultTimeout, rules, events, now, polls, i);
      outcome := ProcessEvent(events[i], now, polls);
      assert events[..i + 1] == events[..i] + [events[i]];
    }

    /** `get_workflows_for_event`: the correlated execution ids, or none. */
    function GetWorkflowsForEvent(eventId: string): (ids: seq<string>)
      reads this
      ensures eventId !in eventWorkflowMap ==> ids == []
      ensures eventId in eventWorkflowMap ==> ids == eventWorkflowMap[eventId]
    {
      if eventId in eventWorkflowMap then eventWorkflowMap[eventId] else []
    }

    /** `get_event_history`: the history filtered by type, then by user, cut
        to the last `limit` events; a limit of zero keeps them all. */
    function GetEventHistory(eventType: Option<string>, userId: Option<string>, limit: int): (r: seq<SsoEvent>)
      reads this
      ensures var selected := Filter(eventHistory, Selector(eventType, userId));
              (limit == 0 || limit >= |selected| ==> r == selected) &&
              (0 < limit < |selected| ==> r == selected[|selected| - limit..]) &&
              (limit < 0 ==> r == selected[if -limit < |selected| then -limit else |selected|..])
    {
      SelectedInOrder(eventHistory, eventType, userId);
      LastItems(SelectEvents(eventHistory, eventType, userId), limit)
    }

    /** `simulate_event`: processes a synthetic event of the given type from a
        fixed client, whose id is built from the timestamp `stamp`; an omitted
        user id or email takes the test user's. */
    method SimulateEvent(eventType: string, userId: Option<string>, userEmail: Option<string>, metadata: Option<Dict>,
                         stamp: string, now: string, polls: nat)
      returns (r: Result<seq<ExecutionResult>, string>)
      modifies this`eventHistory, this`eventWorkflowMap, executor`history, executor`fired
      ensures var event := SimulatedEvent(eventType, userId, userEmail, metadata, stamp, now);
              && eventHistory == old(eventHistory) + [event]
              && r == EventOutcome(executor.backend, executor.defaultTimeout, rules, event, now, polls)
              && eventWorkflowMap == (if r.Success? then Correlate(old(eventWorkflowMap), event.eventId, r.value)
                                      else old(eventWorkflowMap))
              && executor.history == old(executor.history) + EventResults(r)
              && executor.fired == old(executor.fired) +
                 EventFirings(executor.backend, old(executor.CurrentHooks()), executor.defaultTimeout, rules, event, now, polls)
      ensures executor.CurrentHooks() == old(executor.CurrentHooks())
    {
      r := ProcessEvent(SimulatedEvent(eventType, userId, userEmail, metadata, stamp, now), now, polls);
    }
  }

  const SimulatedUserId := "user123"
  const SimulatedUserEmail := "test@example.com"

  /** The synthetic event `simulate_event` builds. */
  function SimulatedEvent(eventType: string, userId: Option<string>, userEmail: Option<string>, metadata: Option<Dict>,
                          stamp: string, now: string): (e: SsoEvent)
    ensures e.eventId == "sim_" + stamp && e.eventType == eventType && e.timestamp == now
    ensures e.userId == Some(userId.GetOr(SimulatedUserId)) && e.userEmail == Some(userEmail.GetOr(SimulatedUserEmail))
    ensures e.clientIp == Some("192.168.1.100") && e.userAgent == Some("Mock Agent/1.0")
    ensures e.metadata == InputOr(metadata)
  {
    SsoEvent("sim_" + stamp, eventType, now, Some(userId.GetOr(SimulatedUserId)), Some(userEmail.GetOr(SimulatedUserEmail)),
             Some("192.168.1.100"), Some("Mock Agent/1.0"), InputOr(metadata))
  }
}
