/** The Okta Workflows connector: constructor validation, the choice between
    the deterministic mock stub and an HTTP request, and the mock results
    themselves. The HTTP transport is outside the model: a non-mock call is
    represented by the request it would send. */
module WorkflowsConnector {
  import opened Base
  import opened Text

  /** The status strings the Workflows API reports. */
  const Pending := "pending"
  const Running := "running"
  const Succeeded := "success"
  const Failed := "failed"
  const Cancelled := "cancelled"

  datatype Connector = Connector(
    orgUrl: Option<string>,
    apiToken: Option<string>,
    mockMode: bool,
    workflowsUrl: Option<string>)

  /** Python's `a or b` on optional strings: `a` unless it is None or empty. */
  function OrElse(a: Option<string>, b: Option<string>): (r: Option<string>)
    ensures IsSet(a) ==> r == a
    ensures !IsSet(a) ==> r == b
  {
    if IsSet(a) then a else b
  }

  /** The constructor. Arguments that are None or empty fall back to the
      OKTA_ORG_URL and OKTA_API_TOKEN environment values, which are passed in.
      Outside mock mode both must end up set, or construction fails. */
  function New(orgUrl: Option<string>, apiToken: Option<string>, mockMode: bool,
               envOrgUrl: Option<string>, envApiToken: Option<string>): (r: Result<Connector, string>)
    ensures r.Failure? <==> !mockMode && (!IsSet(OrElse(orgUrl, envOrgUrl)) || !IsSet(OrElse(apiToken, envApiToken)))
    ensures r.Success? ==> r.value.mockMode == mockMode
    ensures r.Success? ==> r.value.orgUrl == OrElse(orgUrl, envOrgUrl)
    ensures r.Success? ==> r.value.apiToken == OrElse(apiToken, envApiToken)
    ensures r.Success? ==> (r.value.workflowsUrl.Some? <==> IsSet(r.value.orgUrl))
    ensures r.Success? && IsSet(r.value.orgUrl) ==> r.value.workflowsUrl == Some(r.value.orgUrl.value + "/api/flo/v1")
  {
    var url := OrElse(orgUrl, envOrgUrl);
    var token := OrElse(apiToken, envApiToken);
    if !mockMode && (!IsSet(url) || !IsSet(token)) then
      Failure("OKTA_ORG_URL and OKTA_API_TOKEN must be set in environment or mock_mode must be enabled")
    else
      Success(Connector(url, token, mockMode, if IsSet(url) then Some(url.value + "/api/flo/v1") else None))
  }

  /** The base every endpoint is formatted under; a missing base formats as
      Python formats None. */
  function ApiBase(c: Connector): string {
    match c.workflowsUrl
    case Some(u) => u
    case None => "None"
  }

  // ---------------------------------------------------------------------
  // Dispatch: the mock result, or the HTTP request a live call would send
  // ---------------------------------------------------------------------

  datatype HttpRequest =
    | Post(url: string, body: Dict)
    | GetRequest(url: string, params: Dict)

  datatype Dispatch<T> = Mocked(result: T) | Http(request: HttpRequest)

  /** `input_data or {}`. */
  function InputOr(input: Option<Dict>): Dict {
    match input
    case Some(d) => d
    case None => map[]
  }

  function InvokeFlow(c: Connector, flowId: string, input: Option<Dict>, stamp: string, now: string): (r: Dispatch<Dict>)
    ensures r.Mocked? <==> c.mockMode
    ensures r.Mocked? ==> r.result == MockInvokeFlow(flowId, input, stamp, now)
    ensures r.Http? ==> r.request == Post(ApiBase(c) + "/flows/" + flowId + "/invoke", InputOr(input))
  {
    if c.mockMode then Mocked(MockInvokeFlow(flowId, input, stamp, now))
    else Http(Post(ApiBase(c) + "/flows/" + flowId + "/invoke", InputOr(input)))
  }

  function GetFlowStatus(c: Connector, executionId: string, now: string): (r: Dispatch<Dict>)
    ensures r.Mocked? <==> c.mockMode
    ensures r.Mocked? ==> r.result == MockFlowStatus(executionId, now)
    ensures r.Http? ==> r.request == GetRequest(ApiBase(c) + "/executions/" + executionId, map[])
  {
    if c.mockMode then Mocked(MockFlowStatus(executionId, now))
    else Http(GetRequest(ApiBase(c) + "/executions/" + executionId, map[]))
  }

  function ListFlows(c: Connector, filterType: Option<string>): (r: Dispatch<seq<FlowInfo>>)
    ensures r.Mocked? <==> c.mockMode
    ensures r.Mocked? ==> r.result == MockListFlows(filterType)
    ensures r.Http? ==> r.request == GetRequest(ApiBase(c) + "/flows",
                                                if IsSet(filterType) then map["type" := Str(filterType.value)] else map[])
  {
    if c.mockMode then Mocked(MockListFlows(filterType))
    else Http(GetRequest(ApiBase(c) + "/flows",
                         if IsSet(filterType) then map["type" := Str(filterType.value)] else map[]))
  }

  function GetExecutionHistory(c: Connector, flowId: string, limit: int): (r: Dispatch<seq<ExecutionRecord>>)
    ensures r.Mocked? <==> c.mockMode
    ensures r.Mocked? ==> r.result == MockExecutionHistory(flowId, limit)
    ensures r.Http? ==> r.request == GetRequest(ApiBase(c) + "/flows/" + flowId + "/executions", map["limit" := Num(limit)])
  {
    if c.mockMode then Mocked(MockExecutionHistory(flowId, limit))
    else Http(GetRequest(ApiBase(c) + "/flows/" + flowId + "/executions", map["limit" := Num(limit)]))
  }

  /** Every request a connector built outside mock mode goes to an endpoint
      under `<org url>/api/flo/v1/`. */
  lemma EndpointsUnderWorkflowsUrl(orgUrl: Option<string>, apiToken: Option<string>,
                                   envOrgUrl: Option<string>, envApiToken: Option<string>,
                                   flowId: string, executionId: string, filterType: Option<string>, limit: int)
    requires New(orgUrl, apiToken, false, envOrgUrl, envApiToken).Success?
    ensures var c := New(orgUrl, apiToken, false, envOrgUrl, envApiToken).value;
            var prefix := OrElse(orgUrl, envOrgUrl).value + "/api/flo/v1/";
            StartsWith(InvokeFlow(c, flowId, None, "", "").request.url, prefix) &&
            StartsWith(GetFlowStatus(c, executionId, "").request.url, prefix) &&
            StartsWith(ListFlows(c, filterType).request.url, prefix) &&
            StartsWith(GetExecutionHistory(c, flowId, limit).request.url, prefix)
  {
    var c := New(orgUrl, apiToken, false, envOrgUrl, envApiToken).value;
    var base := OrElse(orgUrl, envOrgUrl).value + "/api/flo/v1";
    assert ApiBase(c) == base;
    assert (base + "/flows/" + flowId + "/invoke")[..|base| + 1] == base + "/";
    assert (base + "/executions/" + executionId)[..|base| + 1] == base + "/";
    assert (base + "/flows")[..|base| + 1] == base + "/";
    assert (base + "/flows/" + flowId + "/executions")[..|base| + 1] == base + "/";
  }

  // ---------------------------------------------------------------------
  // The mock stub
  // ---------------------------------------------------------------------

  /** Mock invocation: a running execution of the requested flow whose id is
      built from the flow id and the current timestamp `stamp`. */
  function MockInvokeFlow(flowId: string, input: Option<Dict>, stamp: string, now: string): (r: Dict)
    ensures Get(r, "status") == Str(Running) && Get(r, "flow_id") == Str(flowId)
    ensures Get(r, "input") == Obj(InputOr(input))
    ensures Get(r, "execution_id") == Str("exec_" + flowId + "_" + stamp)
    ensures Get(r, "started_at") == Str(now)
  {
    map["execution_id" := Str("exec_" + flowId + "_" + stamp),
        "flow_id" := Str(flowId),
        "status" := Str(Running),
        "started_at" := Str(now),
        "input" := Obj(InputOr(input))]
  }

  /** Mock status: always a successful, completed execution. It names no flow. */
  function MockFlowStatus(executionId: string, now: string): (r: Dict)
    ensures Get(r, "status") == Str(Succeeded)
    ensures Get(r, "completed_at") != Null
    ensures "flow_id" !in r
  {
    map["execution_id" := Str(executionId),
        "status" := Str(Succeeded),
        "started_at" := Str(now),
        "completed_at" := Str(now),
        "duration_ms" := Num(1234),
        "output" := Obj(map["result" := Str("success"), "actions_completed" := Num(5)])]
  }

  datatype FlowInfo = FlowInfo(flowId: string, name: string, kind: string, description: string, enabled: bool)

  function MockFlows(): seq<FlowInfo> {
    [ FlowInfo("flow_new_hire_onboarding", "New Hire Onboarding", "lifecycle",
               "Automate new employee provisioning and access setup", true),
      FlowInfo("flow_offboarding", "Employee Offboarding", "lifecycle",
               "Revoke access and archive user data", true),
      FlowInfo("flow_mfa_remediation", "MFA Enrollment Remediation", "remediation",
               "Automatically enroll users in MFA", true),
      FlowInfo("flow_access_request", "Application Access Request", "lifecycle",
               "Process and approve application access requests", true),
      FlowInfo("flow_password_expiry", "Password Expiry Notification", "remediation",
               "Notify users before password expiration", true) ]
  }

  function HasKind(kind: string): FlowInfo -> bool {
    (f: FlowInfo) => f.kind == kind
  }

  /** Mock listing: the five flows in fixed order, restricted to one type when
      a (non-empty) filter is given. */
  function MockListFlows(filterType: Option<string>): (r: seq<FlowInfo>)
    ensures !IsSet(filterType) ==> r == MockFlows()
    ensures IsSet(filterType) ==> r == Filter(MockFlows(), HasKind(filterType.value))
    ensures IsSet(filterType) ==> forall i :: 0 <= i < |r| ==> r[i].kind == filterType.value && r[i] in MockFlows()
    ensures IsSet(filterType) ==> forall i :: 0 <= i < |MockFlows()| && MockFlows()[i].kind == filterType.value ==> MockFlows()[i] in r
  {
    if IsSet(filterType) then Filter(MockFlows(), HasKind(filterType.value)) else MockFlows()
  }

  datatype ExecutionRecord = ExecutionRecord(
    executionId: string, status: string, startedAt: string, completedAt: string,
    durationMs: nat, error: Option<string>)

  function MockRecords(flowId: string): seq<ExecutionRecord> {
    [ ExecutionRecord("exec_" + flowId + "_001", Succeeded, "2025-12-01T10:00:00Z", "2025-12-01T10:00:05Z", 5000, None),
      ExecutionRecord("exec_" + flowId + "_002", Succeeded, "2025-12-02T14:30:00Z", "2025-12-02T14:30:03Z", 3000, None),
      ExecutionRecord("exec_" + flowId + "_003", Failed, "2025-12-03T09:15:00Z", "2025-12-03T09:15:10Z", 10000,
                      Some("Timeout waiting for external API")) ]
  }

  /** Mock history: the three fixed records, cut with `[:limit]`. */
  function MockExecutionHistory(flowId: string, limit: int): (r: seq<ExecutionRecord>)
    ensures 0 <= limit ==> |r| == if limit < 3 then limit else 3
    ensures 0 <= limit ==> forall i :: 0 <= i < |r| ==> r[i] == MockRecords(flowId)[i]
    ensures limit < 0 ==> r == MockRecords(flowId)[..if limit < -3 then 0 else 3 + limit]
    ensures forall i :: 0 <= i < |r| ==> StartsWith(r[i].executionId, "exec_" + flowId + "_")
  {
    var r := FirstItems(MockRecords(flowId), limit);
    assert forall i :: 0 <= i < |r| ==> r[i] in MockRecords(flowId);
    r
  }

  // ---------------------------------------------------------------------
  // The connector as the executor sees it
  // ---------------------------------------------------------------------

  /** The two connector operations the flow executor calls, with their
      answers fixed in advance: an invocation answers a flow id and input
      with a response dict or an error message, and the status call answers
      an execution id and the number of the poll (0, 1, ...) with a status
      dict or an error message. */
  datatype Backend = Backend(
    invoke: (string, Dict) -> Result<Dict, string>,
    status: (string, nat) -> Result<Dict, string>)

  /** The mock connector as a backend: every call succeeds. */
  function MockBackend(stamp: string, now: string): Backend {
    Backend((flowId, input) => Success(MockInvokeFlow(flowId, Some(input), stamp, now)),
            (executionId, poll) => Success(MockFlowStatus(executionId, now)))
  }
}
