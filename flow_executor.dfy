/** The flow executor: invokes a flow through the connector, optionally polls
    its status until a terminal status or the deadline, fires the registered
    callbacks, records every returned result in an in-memory history, runs
    batches, and reports filtered history and success rates.

    Time is not modelled: the deadline is the number of status polls that fit
    before it (`polls`), and timestamps are parameters. */
module Executor {
  import opened Base
  import opened Text
  import opened WorkflowsConnector

  datatype ExecutionResult = ExecutionResult(
    executionId: string,
    flowId: string,
    status: string,
    startedAt: Option<string>,
    completedAt: Option<string>,
    durationMs: Option<int>,
    inputData: Dict,
    outputData: Dict,
    error: Option<string>)
  {
    predicate IsSuccess() { status == Succeeded }
    predicate IsFailed() { status == Failed }
    predicate IsTerminal() { status in [Succeeded, Failed, Cancelled] }
  }

  /** Success and failure exclude each other, both are terminal, and the two
      in-flight statuses are not. */
  lemma StatusPredicates(r: ExecutionResult)
    ensures !(r.IsSuccess() && r.IsFailed())
    ensures r.IsSuccess() || r.IsFailed() ==> r.IsTerminal()
    ensures r.status == Pending || r.status == Running ==> !r.IsTerminal()
    ensures r.IsTerminal() <==> r.IsSuccess() || r.IsFailed() || r.status == Cancelled
  {
  }

  // ---------------------------------------------------------------------
  // Reading connector responses
  // ---------------------------------------------------------------------

  /** A string-valued entry of a response dict; absent (or non-string) is None. */
  function GetStr(d: Dict, key: string): (r: Option<string>)
    ensures r.Some? <==> key in d && d[key].Str?
    ensures r.Some? ==> d[key] == Str(r.value)
  {
    if key in d && d[key].Str? then Some(d[key].s) else None
  }

  function GetInt(d: Dict, key: string): Option<int> {
    if key in d && d[key].Num? then Some(d[key].n) else None
  }

  /** `d.get(key, {})` for an object-valued entry. */
  function GetObj(d: Dict, key: string): Dict {
    if key in d && d[key].Obj? then d[key].fields else map[]
  }

  /** The execution id of an invocation response, when it is truthy. */
  function ExecutionIdOf(response: Dict): (r: Option<string>)
    ensures r.Some? <==> IsSet(GetStr(response, "execution_id"))
    ensures r.Some? ==> r.value != "" && response["execution_id"] == Str(r.value)
  {
    match GetStr(response, "execution_id")
    case Some(id) => if id != "" then Some(id) else None
    case None => None
  }

  /** The result recorded right after invocation: the requested flow and
      input, the reported status (running by default) and no completion. */
  function Initial(executionId: string, flowId: string, response: Dict, input: Dict, now: string): (r: ExecutionResult)
    ensures r.executionId == executionId && r.flowId == flowId && r.inputData == input
    ensures r.status == GetStr(response, "status").GetOr(Running)
    ensures r.completedAt.None? && r.durationMs.None? && r.error.None? && r.outputData == map[]
  {
    ExecutionResult(executionId, flowId, GetStr(response, "status").GetOr(Running),
                    Some(GetStr(response, "started_at").GetOr(now)), None, None, input, map[], None)
  }

  /** The result built from one status poll. Its flow id comes from the status
      payload (defaulting to "unknown"), not from the request, and its input is
      empty. */
  function Polled(executionId: string, payload: Dict, start: string): (r: ExecutionResult)
    ensures r.executionId == executionId && r.inputData == map[]
    ensures r.flowId == GetStr(payload, "flow_id").GetOr("unknown")
    ensures r.status == GetStr(payload, "status").GetOr(Running)
    ensures r.startedAt.Some?
  {
    ExecutionResult(executionId,
                    GetStr(payload, "flow_id").GetOr("unknown"),
                    GetStr(payload, "status").GetOr(Running),
                    Some(GetStr(payload, "started_at").GetOr(start)),
                    GetStr(payload, "completed_at"),
                    GetInt(payload, "duration_ms"),
                    map[],
                    GetObj(payload, "output"),
                    GetStr(payload, "error"))
  }

  /** The current status of an execution, without a default start time; a
      connector error propagates as it is. */
  function GetExecutionStatus(b: Backend, executionId: string, poll: nat): (r: Result<ExecutionResult, string>)
    ensures b.status(executionId, poll).Failure? <==> r.Failure?
    ensures r.Success? ==> r.value.startedAt == GetStr(b.status(executionId, poll).value, "started_at")
    ensures r.Success? ==> r.value == Polled(executionId, b.status(executionId, poll).value, "").(startedAt := r.value.startedAt)
  {
    match b.status(executionId, poll)
    case Failure(e) => Failure(e)
    case Success(p) =>
      var polled := Polled(executionId, p, "");
      Success(polled.(startedAt := GetStr(p, "started_at")))
  }

  // ---------------------------------------------------------------------
  // Errors
  // ---------------------------------------------------------------------

  datatype Cause =
    | NoExecutionId
    | TimedOut(executionId: string, timeout: int)
    | ConnectorFailed(message: string)

  /** Every failure of `execute_flow` surfaces as one ExecutionError naming
      the flow and wrapping the cause. */
  datatype ExecutionError = ExecutionError(flowId: string, cause: Cause)

  function CauseText(c: Cause): string {
    match c
    case NoExecutionId => "No execution_id returned from flow invocation"
    case TimedOut(id, t) => "Execution " + id + " timed out after " + IntToString(t) + " seconds"
    case ConnectorFailed(m) => m
  }

  function ErrorText(e: ExecutionError): string {
    "Failed to execute flow " + e.flowId + ": " + CauseText(e.cause)
  }

  // ---------------------------------------------------------------------
  // Polling
  // ---------------------------------------------------------------------

  datatype PollOutcome = Finished(result: ExecutionResult) | Expired | StatusError(message: string)

  /** The result of poll number `k`, or None when that status call fails. */
  function PolledAt(b: Backend, executionId: string, start: string, k: nat): Option<ExecutionResult> {
    match b.status(executionId, k)
    case Success(p) => Some(Polled(executionId, p, start))
    case Failure(_) => None
  }

  /** Poll number `k` succeeds and reports a non-terminal status. */
  predicate StillRunning(b: Backend, executionId: string, start: string, k: nat) {
    PolledAt(b, executionId, start, k).Some? && !PolledAt(b, executionId, start, k).value.IsTerminal()
  }

  /** Polls `k`, `k + 1`, ... up to (excluding) `polls`: the first terminal
      result ends the wait, a failing status call aborts it, and running out
      of polls is a timeout. */
  function Poll(b: Backend, executionId: string, start: string, k: nat, polls: nat): (o: PollOutcome)
    ensures o.Finished? ==> o.result.IsTerminal() && o.result.executionId == executionId
    ensures o.Finished? ==> o.result.inputData == map[]
    ensures k >= polls ==> o.Expired?
    decreases polls - k
  {
    if k >= polls then Expired
    else
      match b.status(executionId, k)
      case Failure(e) => StatusError(e)
      case Success(p) =>
        var r := Polled(executionId, p, start);
        if r.IsTerminal() then Finished(r) else Poll(b, executionId, start, k + 1, polls)
  }

  /** Polling times out exactly when every poll before the deadline succeeds
      and reports a non-terminal status. */
  lemma {:induction false} PollExpires(b: Backend, executionId: string, start: string, k: nat, polls: nat)
    ensures Poll(b, executionId, start, k, polls).Expired? <==>
            forall i :: k <= i < polls ==> StillRunning(b, executionId, start, i)
    decreases polls - k
  {
    if k < polls {
      PollExpires(b, executionId, start, k + 1, polls);
      assert Poll(b, executionId, start, k, polls).Expired? <==>
             StillRunning(b, executionId, start, k) && Poll(b, executionId, start, k + 1, polls).Expired?;
    }
  }

  /** Polling returns the first terminal result when every earlier poll
      succeeded with a non-terminal status. */
  lemma {:induction false} PollFindsFirstTerminal(b: Backend, executionId: string, start: string, k: nat, polls: nat, j: nat)
    requires k <= j < polls
    requires forall i :: k <= i < j ==> StillRunning(b, executionId, start, i)
    requires PolledAt(b, executionId, start, j).Some? && PolledAt(b, executionId, start, j).value.IsTerminal()
    ensures Poll(b, executionId, start, k, polls) == Finished(PolledAt(b, executionId, start, j).value)
    decreases j - k
  {
    if k < j {
      assert StillRunning(b, executionId, start, k);
      PollFindsFirstTerminal(b, executionId, start, k + 1, polls, j);
    }
  }

  // ---------------------------------------------------------------------
  // One execution, as a specification
  // ---------------------------------------------------------------------

  /** `timeout or default`. */
  function EffectiveTimeout(timeout: Option<int>, default: int): int {
    match timeout
    case Some(t) => if t != 0 then t else default
    case None => default
  }

  /** Invocation: the initial result, or why there is none. */
  function Invoked(b: Backend, flowId: string, input: Dict, now: string): (r: Result<ExecutionResult, Cause>)
    ensures r.Success? ==> r.value.flowId == flowId && r.value.inputData == input && r.value.executionId != ""
    ensures r.Failure? && r.error == NoExecutionId <==>
            b.invoke(flowId, input).Success? && ExecutionIdOf(b.invoke(flowId, input).value).None?
  {
    match b.invoke(flowId, input)
    case Failure(m) => Failure(ConnectorFailed(m))
    case Success(response) =>
      match ExecutionIdOf(response)
      case None => Failure(NoExecutionId)
      case Some(id) => Success(Initial(id, flowId, response, input, now))
  }

  /** What `execute_flow` returns or raises. */
  function Attempt(b: Backend, flowId: string, input: Dict, timeout: int, wait: bool, now: string, polls: nat)
    : (r: Result<ExecutionResult, ExecutionError>)
    ensures r.Failure? ==> r.error.flowId == flowId
    ensures !wait ==> (r.Success? <==> Invoked(b, flowId, input, now).Success?)
    ensures !wait && r.Success? ==> r.value == Invoked(b, flowId, input, now).value
    ensures wait && r.Success? ==> r.value.IsTerminal()
  {
    match Invoked(b, flowId, input, now)
    case Failure(c) => Failure(ExecutionError(flowId, c))
    case Success(initial) =>
      if !wait then Success(initial)
      else Concluded(flowId, initial, Poll(b, initial.executionId, now, 0, polls), timeout)
  }

  /** How waiting ends: the terminal result, or a timeout or connector error
      naming the flow. */
  function Concluded(flowId: string, initial: ExecutionResult, o: PollOutcome, timeout: int)
    : (r: Result<ExecutionResult, ExecutionError>)
    ensures r.Success? <==> o.Finished?
    ensures r.Success? ==> r.value == o.result
    ensures r.Failure? ==> r.error.flowId == flowId
  {
    match o
    case Finished(r) => Success(r)
    case Expired => Failure(ExecutionError(flowId, TimedOut(initial.executionId, timeout)))
    case StatusError(m) => Failure(ExecutionError(flowId, ConnectorFailed(m)))
  }

  /** Against the mock connector, waiting ends on the first poll with a
      completed success, provided the deadline allows one poll at all; the
      result's flow id is "unknown", since the mock status names no flow. */
  lemma MockWaitEndsOnFirstPoll(stamp: string, now: string, flowId: string, input: Dict, timeout: int, polls: nat)
    ensures var r := Attempt(MockBackend(stamp, now), flowId, input, timeout, true, now, polls);
            (r.Success? <==> polls >= 1) &&
            (r.Success? ==> r.value.IsSuccess() && r.value.completedAt.Some? && r.value.flowId == "unknown" &&
                            r.value.executionId == "exec_" + flowId + "_" + stamp) &&
            (r.Failure? ==> r.error.cause == TimedOut("exec_" + flowId + "_" + stamp, timeout))
  {
    var b := MockBackend(stamp, now);
    var response := MockInvokeFlow(flowId, Some(input), stamp, now);
    assert b.invoke(flowId, input) == Success(response);
    assert ExecutionIdOf(response) == Some("exec_" + flowId + "_" + stamp);
    var id := "exec_" + flowId + "_" + stamp;
    if polls >= 1 {
      var p := MockFlowStatus(id, now);
      assert b.status(id, 0) == Success(p);
      assert Polled(id, p, now).IsTerminal();
    }
  }

  // ---------------------------------------------------------------------
  // Callbacks
  // ---------------------------------------------------------------------

  /** A registered callback, known by name; `raises` says whether calling it
      on a result raises. Whatever else it does is outside the model. */
  datatype Callback = Callback(name: string, raises: ExecutionResult -> bool)

  /** One callback call: which callback, on which result, and whether it raised. */
  datatype Firing = Firing(callback: string, result: ExecutionResult, raised: bool)

  /** Calling each callback in order on the result; a raising callback is
      logged and the next one still runs. */
  function Firings(callbacks: seq<Callback>, r: ExecutionResult): (fs: seq<Firing>)
    ensures |fs| == |callbacks|
    ensures forall i :: 0 <= i < |fs| ==>
              fs[i] == Firing(callbacks[i].name, r, callbacks[i].raises(r))
    decreases |callbacks|
  {
    if callbacks == [] then []
    else
      var last := callbacks[|callbacks| - 1];
      Firings(callbacks[..|callbacks| - 1], r) + [Firing(last.name, r, last.raises(r))]
  }

  datatype Hooks = Hooks(onStart: seq<Callback>, onComplete: seq<Callback>, onError: seq<Callback>)

  /** The callback calls one `execute_flow` makes: the start callbacks once
      the flow is invoked, then (when waiting ends in a result) the completion
      callbacks on success or the error callbacks on failure; a cancelled
      result fires neither. */
  function FlowFirings(b: Backend, hooks: Hooks, flowId: string, input: Dict, wait: bool, now: string, polls: nat)
    : seq<Firing>
  {
    match Invoked(b, flowId, input, now)
    case Failure(_) => []
    case Success(initial) =>
      Firings(hooks.onStart, initial) +
      if wait then EndFirings(hooks, Poll(b, initial.executionId, now, 0, polls)) else []
  }

  /** The callbacks a finished result calls: completion on success, error on
      failure, none otherwise. */
  function EndCallbacks(hooks: Hooks, r: ExecutionResult): seq<Callback> {
    if r.IsSuccess() then hooks.onComplete
    else if r.IsFailed() then hooks.onError
    else []
  }

  function EndFirings(hooks: Hooks, o: PollOutcome): seq<Firing> {
    if o.Finished? then Firings(EndCallbacks(hooks, o.result), o.result) else []
  }

  // ---------------------------------------------------------------------
  // Batches, as a specification
  // ---------------------------------------------------------------------

  /** One element of a batch: a flow id and an optional input. */
  datatype FlowSpec = FlowSpec(flowId: string, input: Option<Dict>)

  /** Element `i` of a batch result: the execution's own result, or a failed
      placeholder `failed_<i>` for the requested flow carrying the error text. */
  function BatchEntry(i: nat, spec: FlowSpec, a: Result<ExecutionResult, ExecutionError>, now: string)
    : (r: ExecutionResult)
    ensures a.Success? ==> r == a.value
    ensures a.Failure? ==> r.executionId == "failed_" + Digits(i) && r.flowId == spec.flowId
    ensures a.Failure? ==> r.IsFailed() && r.error == Some(ErrorText(a.error))
  {
    match a
    case Success(res) => res
    case Failure(e) =>
      ExecutionResult("failed_" + IntToString(i), spec.flowId, Failed, Some(now), None, None,
                      map[], map[], Some(ErrorText(e)))
  }

  /** The execution of batch element `i`: default timeout, waiting. */
  function BatchAttempt(b: Backend, timeout: int, specs: seq<FlowSpec>, i: nat, now: string, polls: nat)
    : Result<ExecutionResult, ExecutionError>
    requires i < |specs|
  {
    Attempt(b, specs[i].flowId, InputOr(specs[i].input), timeout, true, now, polls)
  }

  /** Batch entry `i` for the element `spec`, executed with the given
      timeout and waited for. */
  function EntryOf(b: Backend, timeout: int, now: string, polls: nat): (nat, FlowSpec) -> ExecutionResult {
    (i: nat, spec: FlowSpec) => BatchEntry(i, spec, Attempt(b, spec.flowId, InputOr(spec.input), timeout, true, now, polls), now)
  }

  /** What the first `n` batch elements add to the history. */
  function BatchHistory(b: Backend, timeout: int, specs: seq<FlowSpec>, n: nat, now: string, polls: nat)
    : seq<ExecutionResult>
    requires n <= |specs|
  {
    if n == 0 then []
    else
      BatchHistory(b, timeout, specs, n - 1, now, polls) +
      match BatchAttempt(b, timeout, specs, n - 1, now, polls)
      case Success(r) => [r]
      case Failure(_) => []
  }

  /** The callback calls the first `n` batch elements make. */
  function BatchFirings(b: Backend, hooks: Hooks, timeout: int, specs: seq<FlowSpec>, n: nat, now: string,
                        polls: nat): seq<Firing>
    requires n <= |specs|
  {
    if n == 0 then []
    else
      BatchFirings(b, hooks, timeout, specs, n - 1, now, polls) +
      FlowFirings(b, hooks, specs[n - 1].flowId, InputOr(specs[n - 1].input), true, now, polls)
  }

  /** One more batch element: its execution and its callback calls follow
      those of the elements before it. */
  lemma BatchElementStep(history0: seq<ExecutionResult>, fired0: seq<Firing>, b: Backend, hooks: Hooks, timeout: int,
                  specs: seq<FlowSpec>, i: nat, now: string, polls: nat)
    requires i < |specs|
    ensures var a := BatchAttempt(b, timeout, specs, i, now, polls);
            history0 + BatchHistory(b, timeout, specs, i + 1, now, polls) ==
            history0 + BatchHistory(b, timeout, specs, i, now, polls) + if a.Success? then [a.value] else []
    ensures fired0 + BatchFirings(b, hooks, timeout, specs, i + 1, now, polls) ==
            fired0 + BatchFirings(b, hooks, timeout, specs, i, now, polls) +
            FlowFirings(b, hooks, specs[i].flowId, InputOr(specs[i].input), true, now, polls)
  {
  }

  /** Failed placeholders of one batch have distinct execution ids. */
  lemma FailedPlaceholdersDistinct(i: nat, j: nat, si: FlowSpec, sj: FlowSpec,
                                   ai: Result<ExecutionResult, ExecutionError>,
                                   aj: Result<ExecutionResult, ExecutionError>, now: string)
    requires i != j && ai.Failure? && aj.Failure?
    ensures BatchEntry(i, si, ai, now).executionId != BatchEntry(j, sj, aj, now).executionId
  {
    DigitsInjective("failed_", i, j);
  }

  // ---------------------------------------------------------------------
  // History queries
  // ---------------------------------------------------------------------

  /** The history filters: each applies only when given (and non-empty). */
  predicate Selected(flowId: Option<string>, statusFilter: Option<string>, r: ExecutionResult) {
    (IsSet(flowId) ==> r.flowId == flowId.value) && (IsSet(statusFilter) ==> r.status == statusFilter.value)
  }

  function FlowIs(flowId: string): ExecutionResult -> bool {
    (r: ExecutionResult) => r.flowId == flowId
  }

  function StatusIs(status: string): ExecutionResult -> bool {
    (r: ExecutionResult) => r.status == status
  }

  function SuccessOf(): ExecutionResult -> bool {
    (r: ExecutionResult) => r.IsSuccess()
  }

  class FlowExecutor {
    const backend: Backend
    const defaultTimeout: int
    var history: seq<ExecutionResult>
    var onStart: seq<Callback>
    var onComplete: seq<Callback>
    var onError: seq<Callback>
    /** Every callback call made so far, in order. */
    var fired: seq<Firing>

    constructor(backend: Backend, defaultTimeout: int)
      ensures this.backend == backend && this.defaultTimeout == defaultTimeout
      ensures history == [] && onStart == [] && onComplete == [] && onError == [] && fired == []
    {
      this.backend := backend;
      this.defaultTimeout := defaultTimeout;
      history := [];
      onStart := [];
      onComplete := [];
      onError := [];
      fired := [];
    }

    function CurrentHooks(): Hooks
      reads this
    {
      Hooks(onStart, onComplete, onError)
    }

    method OnStart(callback: Callback)
      modifies this`onStart
      ensures onStart == old(onStart) + [callback]
    {
      onStart := onStart + [callback];
    }

    method OnComplete(callback: Callback)
      modifies this`onComplete
      ensures onComplete == old(onComplete) + [callback]
    {
      onComplete := onComplete + [callback];
    }

    method OnError(callback: Callback)
      modifies this`onError
      ensures onError == old(onError) + [callback]
    {
      onError := onError + [callback];
    }

    /** Calls each callback in turn; a raising callback neither propagates
        nor stops the later ones. */
    method TriggerCallbacks(callbacks: seq<Callback>, r: ExecutionResult)
      modifies this`fired
      ensures fired == old(fired) + Firings(callbacks, r)
    {
      var i := 0;
      while i < |callbacks|
        invariant 0 <= i <= |callbacks|
        invariant fired == old(fired) + Firings(callbacks[..i], r)
      {
        var raised := callbacks[i].raises(r);
        assert callbacks[..i + 1][..i] == callbacks[..i];
        fired := fired + [Firing(callbacks[i].name, r, raised)];
        i := i + 1;
      }
      assert callbacks[..i] == callbacks;
    }

    /** Polls the execution's status until it is terminal or the deadline
        (after `polls` polls) passes. */
    method WaitForCompletion(executionId: string, start: string, polls: nat) returns (o: PollOutcome)
      ensures o == Poll(backend, executionId, start, 0, polls)
    {
      var k := 0;
      while k < polls
        invariant 0 <= k <= polls
        invariant Poll(backend, executionId, start, 0, polls) == Poll(backend, executionId, start, k, polls)
        decreases polls - k
      {
        var status := backend.status(executionId, k);
        if status.Failure? {
          return StatusError(status.error);
        }
        var r := Polled(executionId, status.value, start);
        if r.IsTerminal() {
          return Finished(r);
        }
        k := k + 1;
      }
      return Expired;
    }

    /** The waiting half of `execute_flow`: polls the invoked execution, then
        calls the completion or error callbacks on the result it ends with. */
    method AwaitResult(flowId: string, initial: ExecutionResult, timeout: int, now: string, polls: nat,
                       ghost hooks: Hooks)
      returns (r: Result<ExecutionResult, ExecutionError>)
      requires CurrentHooks() == hooks
      modifies this`fired
      ensures CurrentHooks() == hooks
      ensures r == Concluded(flowId, initial, Poll(backend, initial.executionId, now, 0, polls), timeout)
      ensures fired == old(fired) + EndFirings(hooks, Poll(backend, initial.executionId, now, 0, polls))
    {
      var outcome := WaitForCompletion(initial.executionId, now, polls);
      r := Concluded(flowId, initial, outcome, timeout);
      if r.Success? {
        if r.value.IsSuccess() {
          TriggerCallbacks(onComplete, r.value);
        } else if r.value.IsFailed() {
          TriggerCallbacks(onError, r.value);
        }
      }
    }

    /** Invokes a flow and, when asked, waits for it to finish. A returned
        result is appended to the history; on any error the history is
        unchanged and the error names the flow. */
    method ExecuteFlow(flowId: string, input: Option<Dict>, timeout: Option<int>, wait: bool, now: string, polls: nat)
      returns (r: Result<ExecutionResult, ExecutionError>)
      modifies this`history, this`fired
      ensures r == Attempt(backend, flowId, InputOr(input), EffectiveTimeout(timeout, defaultTimeout), wait, now, polls)
      ensures history == old(history) + if r.Success? then [r.value] else []
      ensures CurrentHooks() == old(CurrentHooks())
      ensures fired == old(fired) + FlowFirings(backend, old(CurrentHooks()), flowId, InputOr(input), wait, now, polls)
    {
      var data := InputOr(input);
      var invoked := Invoked(backend, flowId, data, now);
      if invoked.Failure? {
        return Failure(ExecutionError(flowId, invoked.error));
      }
      ghost var hooks := CurrentHooks();
      var result := invoked.value;
      TriggerCallbacks(onStart, result);
      if wait {
        var concluded := AwaitResult(flowId, result, EffectiveTimeout(timeout, defaultTimeout), now, polls, hooks);
        if concluded.Failure? {
          return concluded;
        }
        result := concluded.value;
      }
      history := history + [result];
      return Success(result);
    }

    /** Batch element `i`, run after the elements before it: its entry in the
        result list, and what it adds to the history and the callback calls. */
    method RunBatchElement(specs: seq<FlowSpec>, i: nat, now: string, polls: nat,
                           ghost history0: seq<ExecutionResult>, ghost fired0: seq<Firing>, ghost hooks: Hooks)
      returns (entry: ExecutionResult)
      requires i < |specs| && CurrentHooks() == hooks
      requires history == history0 + BatchHistory(backend, defaultTimeout, specs, i, now, polls)
      requires fired == fired0 + BatchFirings(backend, hooks, defaultTimeout, specs, i, now, polls)
      modifies this`history, this`fired
      ensures CurrentHooks() == hooks
      ensures entry == EntryOf(backend, defaultTimeout, now, polls)(i, specs[i])
      ensures history == history0 + BatchHistory(backend, defaultTimeout, specs, i + 1, now, polls)
      ensures fired == fired0 + BatchFirings(backend, hooks, defaultTimeout, specs, i + 1, now, polls)
    {
      BatchElementStep(history0, fired0, backend, hooks, defaultTimeout, specs, i, now, polls);
      var a := ExecuteFlow(specs[i].flowId, specs[i].input, None, true, now, polls);
      entry := BatchEntry(i, specs[i], a, now);
    }

    /** Runs every element of a batch with the default timeout, waiting for
        each; the results line up index for index with the input, an element
        that raised becoming a failed placeholder. */
    method ExecuteMultipleFlows(specs: seq<FlowSpec>, now: string, polls: nat)
      returns (results: seq<ExecutionResult>)
      modifies this`history, this`fired
      ensures |results| == |specs|
      ensures forall i :: 0 <= i < |specs| ==>
                results[i] == BatchEntry(i, specs[i], BatchAttempt(backend, defaultTimeout, specs, i, now, polls), now)
      ensures history == old(history) + BatchHistory(backend, defaultTimeout, specs, |specs|, now, polls)
      ensures CurrentHooks() == old(CurrentHooks())
      ensures fired == old(fired) + BatchFirings(backend, old(CurrentHooks()), defaultTimeout, specs, |specs|, now, polls)
    {
      results := [];
      ghost var hooks := CurrentHooks();
      var i := 0;
      while i < |specs|
        invariant 0 <= i <= |specs|
        invariant CurrentHooks() == hooks
        invariant results == MapIndexed(specs[..i], EntryOf(backend, defaultTimeout, now, polls))
        invariant history == old(history) + BatchHistory(backend, defaultTimeout, specs, i, now, polls)
        invariant fired == old(fired) + BatchFirings(backend, hooks, defaultTimeout, specs, i, now, polls)
      {
        var entry := RunBatchElement(specs, i, now, polls, old(history), old(fired), hooks);
        assert specs[..i + 1][..i] == specs[..i];
        results := results + [entry];
        i := i + 1;
      }
      assert specs[..i] == specs;
    }

    /** `get_execution_history`: the history entries passing the given
        filters, in history order. */
    function GetExecutionHistory(flowId: Option<string>, statusFilter: Option<string>): (r: seq<ExecutionResult>)
      reads this
      ensures r == Filter(history, (x: ExecutionResult) => Selected(flowId, statusFilter, x))
      ensures forall i :: 0 <= i < |r| ==> r[i] in history && Selected(flowId, statusFilter, r[i])
      ensures forall i :: 0 <= i < |history| && Selected(flowId, statusFilter, history[i]) ==> history[i] in r
    {
      var selected := (x: ExecutionResult) => Selected(flowId, statusFilter, x);
      var byFlow := if IsSet(flowId) then Filter(history, FlowIs(flowId.value)) else history;
      var byStatus := if IsSet(statusFilter) then Filter(byFlow, StatusIs(statusFilter.value)) else byFlow;
      if IsSet(flowId) && IsSet(statusFilter) then
        FilterFilter(history, FlowIs(flowId.value), StatusIs(statusFilter.value), selected);
        byStatus
      else if IsSet(flowId) then
        FilterCongruent(history, FlowIs(flowId.value), selected);
        byStatus
      else if IsSet(statusFilter) then
        FilterCongruent(history, StatusIs(statusFilter.value), selected);
        byStatus
      else
        FilterAll(history, selected);
        byStatus
    }

    /** `get_success_rate`: the percentage of successes among the selected
        executions (every status counts in the denominator), 0 when none is
        selected. */
    function GetSuccessRate(flowId: Option<string>): (rate: real)
      reads this
      ensures 0.0 <= rate <= 100.0
      ensures var h := GetExecutionHistory(flowId, None);
              rate == 100.0 <==> |h| > 0 && forall i :: 0 <= i < |h| ==> h[i].IsSuccess()
      ensures var h := GetExecutionHistory(flowId, None);
              rate == 0.0 <==> forall i :: 0 <= i < |h| ==> !h[i].IsSuccess()
    {
      var h := GetExecutionHistory(flowId, None);
      if |h| == 0 then 0.0
      else
        var successes := Count(h, SuccessOf());
        CountAll(h, SuccessOf());
        CountNone(h, SuccessOf());
        SuccessRateBounds(successes, |h|);
        (successes as real / |h| as real) * 100.0
    }
  }

  lemma SuccessRateBounds(successes: nat, total: nat)
    requires 0 < total && successes <= total
    ensures 0.0 <= (successes as real / total as real) * 100.0 <= 100.0
    ensures (successes as real / total as real) * 100.0 == 100.0 <==> successes == total
    ensures (successes as real / total as real) * 100.0 == 0.0 <==> successes == 0
  {
    var q := successes as real / total as real;
    assert q * total as real == successes as real;
    assert q * 100.0 * total as real == successes as real * 100.0;
    PercentageFacts(q * 100.0, successes as real, total as real);
  }
}
