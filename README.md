# Identity hub core, modelled in Dafny

This project models the core of an Okta-centred identity hub. Each module covers one core file:

- **WorkflowsConnector** (`okta_workflows_connector.dfy`): the Okta Workflows connector. It validates its configuration, chooses between the deterministic mock stub and an HTTP request, and builds the mock invocation, status, flow listing and execution history.
- **Executor** (`flow_executor.dfy`): the flow executor, a class. It invokes flows through the connector, polls until a terminal status, fires the start, completion and error callbacks in registration order, and keeps an execution history. It runs batches whose results line up with their inputs, and reports filtered history and success rates.
- **Triggers** (`event_trigger.dfy`): the event trigger, a class. It holds an ordered rule registry with five default rules and matches SSO events to rules. It dispatches workflows, keeps an append-only event history and a correlation map from event ids to execution ids, and processes batches.
- **Campaigns** (`campaign.dfy`) and **Dates** (`dates.dfy`): access certification campaigns.
  - The campaign manager is a class: campaigns move DRAFT/SCHEDULED → ACTIVE → COMPLETED, and decision counters are updated in place.
  - Also modelled: overdue detection and quarterly campaign dates, using Python's proleptic Gregorian dates.
- **Reports** (`reports.dfy`): compliance reporting.
  - Per-campaign evidence, with control mappings satisfied at a 95% completion threshold.
  - The executive summary, with compliance score and recommendations.
  - The markdown export, and the audit package.
- **HrisModels** (`hris_models.dfy`): the HRIS employee record and its Okta profile and SCIM user shapes (sections 4.1 and 4.3 of RFC 7643).
- **HrisServer** (`hris_server.dfy`): the HRIS mock server, a class over the employee table, event log and webhook list.
  - Joiner, mover and leaver endpoints, with change detection on update.
  - Webhook routing, listings with pagination, and the SCIM listing.
- **HrisEvents** (`hris_events.dfy`): the HR event generator, a class holding the employee counter and the generated employees. It builds new hires, transfers, promotions, manager changes and terminations from supplied random draws.
- **ScimServer** (`scim_server.dfy`): the SCIM 2.0 users endpoint.
  - Bearer-token gating (section 2.1 of RFC 6750).
  - A users table keyed by id with unique user names.
  - Create, get, list, PUT, PATCH (section 3.5.2 of RFC 7644) and delete.
- **SamlSp** (`saml_sp.dfy`): the Flask SAML service provider. It shapes the request dictionary for the SAML library and manages the session through the assertion consumer service, logout and single logout.
- **Base** and **Text**: shared helpers.
  - Base: optional values, results, JSON-like values, filters and slices.
  - Text: Python's string splitting and joining, prefix tests, decimal formatting and upper-casing.

Where the source keeps state in objects or module-level collections, the model is a class whose methods are proved against specification functions. The properties the source promises are proved about those functions as lemmas. Pure code is modelled as functions and lemmas.

## Model

| member | source | states |
|---|---|---|
| WorkflowsConnector.OrElse | src/integrations/okta_workflows_connector.py:71-72 | `a or b` on optional strings: the argument when it is set and non-empty, the environment value otherwise |
| WorkflowsConnector.New | src/integrations/okta_workflows_connector.py:71-82 | construction fails exactly outside mock mode with a missing org URL or token; otherwise the fields are the argument-or-environment values and the Workflows URL is `<org>/api/flo/v1` exactly when an org URL is set |
| WorkflowsConnector.InvokeFlow | src/integrations/okta_workflows_connector.py:137-143 | mock mode answers with the mock invocation; otherwise a POST to `/flows/<id>/invoke` with `input_data or {}` |
| WorkflowsConnector.GetFlowStatus | src/integrations/okta_workflows_connector.py:166-193 | mock mode answers with the mock status; otherwise a GET of `/executions/<id>` |
| WorkflowsConnector.ListFlows | src/integrations/okta_workflows_connector.py:195-224 | mock mode answers with the mock listing; otherwise a GET of `/flows`, with the type parameter only when a filter is given |
| WorkflowsConnector.GetExecutionHistory | src/integrations/okta_workflows_connector.py:226-260 | mock mode answers with the mock history; otherwise a GET of `/flows/<id>/executions` with the limit |
| WorkflowsConnector.EndpointsUnderWorkflowsUrl | src/integrations/okta_workflows_connector.py:82-260 | a connector built outside mock mode sends every request to an endpoint under `<org>/api/flo/v1` |
| WorkflowsConnector.MockInvokeFlow | src/integrations/okta_workflows_connector.py:264-279 | a running execution of the requested flow, echoing the input (or `{}`), with id `exec_<flow>_<stamp>` |
| WorkflowsConnector.MockFlowStatus | src/integrations/okta_workflows_connector.py:281-295 | every status is a completed success, and the answer carries no flow id |
| WorkflowsConnector.MockListFlows | src/integrations/okta_workflows_connector.py:297-342 | without a filter the five fixed flows; with one, exactly those of that type, in the same order |
| WorkflowsConnector.MockExecutionHistory | src/integrations/okta_workflows_connector.py:344-375 | the three fixed records cut by Python's `[:limit]` (negative limits included), every id prefixed `exec_<flow>_` |
| Executor.StatusPredicates | src/integrations/flow_executor.py:61-75 | success and failure exclude each other, both are terminal, terminal means success, failure or cancelled, and pending and running are never terminal |
| Executor.GetStr | src/integrations/flow_executor.py:159-169 | reading a response entry gives a string exactly when the key holds one |
| Executor.ExecutionIdOf | src/integrations/flow_executor.py:159-162 | an execution id exists exactly when the response holds a non-empty one |
| Executor.Initial | src/integrations/flow_executor.py:165-171 | the first result names the requested flow and input, takes the reported status with `running` as default, and has nothing completed yet |
| Executor.Polled | src/integrations/flow_executor.py:283-292 | a polled result takes its flow id from the status answer with `unknown` as default and its status with `running` as default |
| Executor.GetExecutionStatus | src/integrations/flow_executor.py:306-327 | fails exactly when the connector's status call fails; otherwise the polled result with the reported start time and no default |
| Executor.Poll | src/integrations/flow_executor.py:280-304 | polling ends with a terminal result for the execution, or expires once the deadline is reached |
| Executor.PollExpires | src/integrations/flow_executor.py:280-304 | waiting times out exactly when every poll before the deadline answers and is non-terminal |
| Executor.PollFindsFirstTerminal | src/integrations/flow_executor.py:280-296 | waiting returns the first terminal poll result when every earlier poll is still running |
| Executor.Invoked | src/integrations/flow_executor.py:158-171 | invocation yields a result for the requested flow and input with a non-empty id, or fails for a missing id exactly when the response has none |
| Executor.Attempt | src/integrations/flow_executor.py:151-193 | every failure names the flow; without waiting the result is the invocation's; with waiting a returned result is terminal |
| Executor.Concluded | src/integrations/flow_executor.py:294-304 | waiting returns exactly when polling finished, with the polled result; otherwise an error naming the flow |
| Executor.MockWaitEndsOnFirstPoll | src/integrations/flow_executor.py:280-296 | against the mock connector, waiting ends on the first poll with a success whose flow id is `unknown` |
| Executor.Firings | src/integrations/flow_executor.py:386-399 | each callback is called once, in order, on the result; one that raises does not stop the rest |
| Executor.BatchEntry | src/integrations/flow_executor.py:222-234 | a batch element's entry is its own result, or a failed placeholder `failed_<i>` naming its flow and carrying the error text |
| Executor.BatchElementStep | src/integrations/flow_executor.py:223-234 | one more batch element extends the history and the callback calls by exactly that element's |
| Executor.FailedPlaceholdersDistinct | src/integrations/flow_executor.py:226-228 | two failed elements of one batch get different placeholder ids |
| Executor.FlowExecutor.constructor | src/integrations/flow_executor.py:95-127 | a new executor has empty history and no callbacks |
| Executor.FlowExecutor.OnStart | src/integrations/flow_executor.py:374-376 | appends the callback to the start list |
| Executor.FlowExecutor.OnComplete | src/integrations/flow_executor.py:378-380 | appends the callback to the completion list |
| Executor.FlowExecutor.OnError | src/integrations/flow_executor.py:382-384 | appends the callback to the error list |
| Executor.FlowExecutor.TriggerCallbacks | src/integrations/flow_executor.py:386-399 | the calls made are exactly the callbacks in order on that result |
| Executor.FlowExecutor.WaitForCompletion | src/integrations/flow_executor.py:257-304 | the polling loop returns exactly `Poll` from the first poll: the first terminal status ends the wait, a failing status call aborts it, and running out of polls is a timeout |
| Executor.FlowExecutor.AwaitResult | src/integrations/flow_executor.py:177-184 | waits, then calls completion callbacks on success and error callbacks on failure, leaving the registered callbacks alone |
| Executor.FlowExecutor.ExecuteFlow | src/integrations/flow_executor.py:129-193 | the outcome is the attempt's; a returned result is appended to the history and a raised error adds nothing; the start callbacks run once per invocation |
| Executor.FlowExecutor.RunBatchElement | src/integrations/flow_executor.py:213-234 | runs one batch element and extends history and callback calls by its share |
| Executor.FlowExecutor.ExecuteMultipleFlows | src/integrations/flow_executor.py:195-255 | one entry per element, index-aligned; the history grows by the elements' returned results in order |
| Executor.FlowExecutor.GetExecutionHistory | src/integrations/flow_executor.py:329-352 | the history entries passing the flow and status filters, in order; every passing entry is kept |
| Executor.FlowExecutor.GetSuccessRate | src/integrations/flow_executor.py:354-370 | a percentage in [0, 100], 100 exactly when there are entries and all succeeded, 0 exactly when none succeeded |
| Executor.SuccessRateBounds | src/integrations/flow_executor.py:366-370 | the rate formula stays in [0, 100], reaching 100 and 0 exactly at all and no successes |
| Triggers.Matching | src/integrations/event_trigger.py:395-422 | the matching rules never outnumber the registered ones; a raising condition makes the whole match raise |
| Triggers.MatchingIsFilter | src/integrations/event_trigger.py:405-422 | when no condition raises, the match is exactly the enabled rules listing the event type whose condition holds, in registration order |
| Triggers.MatchingPrefixFails | src/integrations/event_trigger.py:407-418 | once an earlier rule's condition raises, the later rules do not change the outcome |
| Triggers.MatchingOnlyRule | src/integrations/event_trigger.py:405-422 | when only one rule lists the event type, that rule alone decides the match |
| Triggers.MatchingNoRule | src/integrations/event_trigger.py:413-414 | when no rule lists the event type, nothing matches |
| Triggers.MatchingFails | src/integrations/event_trigger.py:407-418 | the match raises exactly when some enabled rule listing the event type has a raising condition |
| Triggers.DefaultInput | src/integrations/event_trigger.py:442-449 | the default flow input has exactly the keys event_id, event_type, user_id, user_email and timestamp, holding the event's values |
| Triggers.Transform | src/integrations/event_trigger.py:439-449 | a rule's transformer decides the input when it has one; otherwise the default input |
| Triggers.Returned | src/integrations/event_trigger.py:338-347 | a rule whose execution raises adds no result; one that returns adds its result |
| Triggers.Dispatched | src/integrations/event_trigger.py:324-347 | the rules run so far contribute at most one result each |
| Triggers.DispatchedStep | src/integrations/event_trigger.py:327-347 | running one more matching rule appends its result exactly when its execution returns |
| Triggers.DispatchedAll | src/integrations/event_trigger.py:327-347 | when every matching rule's execution returns, there is one result per rule, in rule order |
| Triggers.DispatchFiringsStep | src/integrations/event_trigger.py:327-336 | running one more matching rule appends exactly that execution's callback calls |
| Triggers.EventOutcome | src/integrations/event_trigger.py:299-353 | processing raises exactly when matching raises; otherwise at most one result per matching rule |
| Triggers.ExecutionIds | src/integrations/event_trigger.py:339 | one execution id per result, in order |
| Triggers.Correlate | src/integrations/event_trigger.py:349-351 | an event with results has its entry replaced by their execution ids; one without results leaves the map alone; other events keep their entries |
| Triggers.BatchMapKeys | src/integrations/event_trigger.py:372-393 | the batch map has exactly one key per event id of the batch |
| Triggers.BatchMapLastWins | src/integrations/event_trigger.py:378-391 | an event whose id no later event repeats maps to its own results, or to none when its processing raised |
| Triggers.BatchEventStep | src/integrations/event_trigger.py:385-391 | one more event of a batch adds its own correlation, executions and callback calls |
| Triggers.MfaRuleMatches | src/integrations/event_trigger.py:201-212 | of the default rules, a login failure is taken only by the MFA remediation rule, and only when the reason is `mfa_not_enrolled` |
| Triggers.SelectedInOrder | src/integrations/event_trigger.py:480-486 | filtering by type and then by user keeps exactly the events passing both, in order |
| Triggers.EventTrigger.constructor | src/integrations/event_trigger.py:145-239 | a new trigger holds the five default rules in order, with empty history and correlation map |
| Triggers.EventTrigger.AddRule | src/integrations/event_trigger.py:241-249 | appends the rule without checking its id |
| Triggers.EventTrigger.RemoveRule | src/integrations/event_trigger.py:251-268 | drops every rule with the id, keeping the rest in order, and reports whether any was there |
| Triggers.EventTrigger.GetRule | src/integrations/event_trigger.py:270-283 | the first rule with the id, or none exactly when no rule has it |
| Triggers.EventTrigger.ListRules | src/integrations/event_trigger.py:285-297 | all rules; or the enabled ones, exactly the registered rules filtered by `enabled` in registration order, each as often as it is registered |
| Triggers.EventTrigger.FindMatchingRules | src/integrations/event_trigger.py:395-422 | the loop returns exactly `Matching`: the enabled rules that take the event, in registration order, or the error of the first condition that raises |
| Triggers.EventTrigger.ExecuteRule | src/integrations/event_trigger.py:328-347 | one rule's input and execution; a returned result goes to the executor's history |
| Triggers.EventTrigger.DispatchNext | src/integrations/event_trigger.py:327-347 | one loop step extends the results, executor history and fired hooks to those of `Dispatched` and `DispatchFirings` over one more matching rule |
| Triggers.EventTrigger.DispatchRules | src/integrations/event_trigger.py:324-347 | the results and execution ids of all matching rules, appended to the executor's history |
| Triggers.EventTrigger.ProcessEvent | src/integrations/event_trigger.py:299-353 | the event is recorded even when matching raises; the outcome is `EventOutcome`, and on success the event id is correlated with the returned execution ids; the executor history and fired hooks grow by that outcome's |
| Triggers.EventTrigger.ProcessEventsBatch | src/integrations/event_trigger.py:355-393 | every event is processed in input order and recorded; the returned map is `BatchMap` and the correlation map `BatchCorrelation` over the events |
| Triggers.EventTrigger.RunBatchEvent | src/integrations/event_trigger.py:385-391 | one batch event processed after the ones before it |
| Triggers.EventTrigger.GetWorkflowsForEvent | src/integrations/event_trigger.py:451-461 | the correlated execution ids, or none for an unknown event |
| Triggers.EventTrigger.GetEventHistory | src/integrations/event_trigger.py:463-488 | Python's `[-limit:]` of the history filtered by type and user: everything for a zero or too large limit, the last `limit` events for a smaller positive one, and all but the first `-limit` events for a negative one |
| Triggers.EventTrigger.SimulateEvent | src/integrations/event_trigger.py:490-521 | the synthetic event is recorded in the history and processed exactly as a received one: the outcome, the event-to-workflow map, the executor history and the fired hooks are those of `ProcessEvent` on it |
| Triggers.SimulatedEvent | src/integrations/event_trigger.py:490-518 | the synthetic event has id `sim_<stamp>`, the given type, the given user id and email or the defaults `user123` and `test@example.com`, the fixed client address and agent, and the given metadata or `{}` |
| Dates.OrdinalOrder | access-certification/campaign.py:163-166 | on valid dates Python's date comparison and day-count order agree |
| Dates.PreviousDay | hris-mock/events.py:312 | the day before a valid date is valid, and it is missing only for the first representable date |
| Dates.PreviousDayOrdinal | hris-mock/events.py:312 | the previous day is exactly one day earlier |
| Campaigns.CompletionBounds | access-certification/campaign.py:157-160 | with counters within the total, `CompletionPercentage` (before rounding) lies in [0, 100], is 100 exactly when all items are decided, and reaches 95 exactly when 100 times the decided items reach 95 times the total |
| Campaigns.OverdueMeansPastEnd | access-certification/campaign.py:163-166 | `IsOverdue` holds exactly when the campaign is active with an end date and a negative number of days remaining |
| Campaigns.Counted | access-certification/campaign.py:324-330 | a decision takes one pending item and adds one certified (approve) or revoked (revoke) item, changing nothing else |
| Campaigns.DecisionKeepsTotals | access-certification/campaign.py:318-330 | recording a decision keeps every campaign stored under its id with the item count as its total |
| Campaigns.RepeatedDecisionsOvercount | access-certification/campaign.py:312-330 | deciding the one item of a campaign twice counts two certified items against a total of one, with pending at -1 |
| Campaigns.FirstWithId | access-certification/campaign.py:313 | the first item with the id, or none exactly when no item has it |
| Campaigns.PendingItems | access-certification/campaign.py:400 | exactly the undecided items: the stored items filtered by decision, in stored order, each as often as it is stored |
| Campaigns.RiskCountsBounded | access-certification/campaign.py:345-347 | critical and high-risk counts add up to the items at either level and never exceed the item count |
| Campaigns.CampaignManager.constructor | access-certification/campaign.py:204-207 | a new manager has three empty tables |
| Campaigns.CampaignManager.CreateCampaign | access-certification/campaign.py:209-239 | a DRAFT campaign with zero counters and the default frameworks when none are given, stored with empty items and reviewers |
| Campaigns.CampaignManager.AddAccessItems | access-certification/campaign.py:241-257 | an unknown campaign raises with nothing changed; otherwise the items are appended, total and pending become the item count, and the number added is returned |
| Campaigns.CampaignManager.AssignReviewer | access-certification/campaign.py:259-281 | an unknown campaign raises; otherwise the new reviewer record is appended with all items, or the listed ones, assigned and pending |
| Campaigns.CampaignManager.StartCampaign | access-certification/campaign.py:283-297 | only DRAFT and SCHEDULED campaigns become ACTIVE; any other status raises with nothing changed |
| Campaigns.CampaignManager.FindItem | access-certification/campaign.py:313 | the scan finds the first item with the id |
| Campaigns.CampaignManager.RecordDecision | access-certification/campaign.py:299-332 | an unknown campaign or item raises with nothing changed; otherwise the first item with the id takes the decision and the counters move by one |
| Campaigns.CampaignManager.GetCampaignSummary | access-certification/campaign.py:334-378 | fails exactly for an unknown campaign; otherwise the id, name, type, status and counters as the campaign has them, the number of reviewers and of those whose completed items equal their assigned ones, the counts of critical, high-risk and SoD-conflicted items (bounded by the item count), days remaining and the overdue flag |
| Campaigns.CampaignManager.CompleteCampaign | access-certification/campaign.py:380-390 | any existing campaign becomes COMPLETED; an unknown one raises |
| Campaigns.CampaignManager.GetPendingReviews | access-certification/campaign.py:392-400 | the campaign's stored items filtered to the undecided ones, in stored order and with their multiplicity, whatever reviewer id is given; none for an unknown campaign |
| Campaigns.CampaignManager.GetOverdueItems | access-certification/campaign.py:402-414 | an unknown campaign raises; a campaign that is not overdue has none; an overdue one gives exactly its pending reviews, in stored order |
| Campaigns.QuarterWindow | access-certification/campaign.py:435-446 | a quarterly campaign runs from the first to the last day of the quarter's first month, both valid dates, start before end |
| Campaigns.CreateQuarterlyCampaign | access-certification/campaign.py:421-460 | a year out of range or an unknown quarter fails with nothing changed; otherwise a new DRAFT quarterly review with zero counters, named `<quarter> <year> Access Certification`, running over the first month of the quarter, with the quarterly description, the given departments and the SOC2, ISO27001 and NIST frameworks, stored with empty items and reviewers |
| HrisEvents.DefaultConfigOk | hris-mock/events.py:44-89 | the default configuration has locations, at least two distinct departments and a non-empty title ladder for each department |
| HrisEvents.Ladder | hris-mock/events.py:128 | a department's title ladder, `["Analyst"]` when it has none, is never empty |
| HrisEvents.Pick | hris-mock/events.py:127 | a random choice is an element of the list |
| HrisEvents.DepartmentCode | hris-mock/events.py:139 | the department id is the first three characters of the department (fewer when it is shorter), each upper-cased |
| HrisEvents.EmployeeNumbersDistinct | hris-mock/events.py:116-119 | different counter values give different `EMP` numbers (five digits zero-padded) |
| HrisEvents.HireShape | hris-mock/events.py:121-145 | a new hire carries the employee number just generated, works in a configured department and location, holds one of the first three titles of its ladder, and has the upper-cased three-letter department code as its department id |
| HrisEvents.OtherDepartments | hris-mock/events.py:170-172 | exactly the configured departments other than the given one, never empty under the configuration's constraints |
| HrisEvents.Transfer | hris-mock/events.py:157-196 | a transfer is produced exactly when there are generated employees |
| HrisEvents.TransferElsewhere | hris-mock/events.py:166-190 | a transfer moves a generated employee to a configured department other than the one it records as previous |
| HrisEvents.Position | hris-mock/events.py:212 | the first position of the title on the ladder, or 0 for a title not on it |
| HrisEvents.Promote | hris-mock/events.py:198-234 | a produced event is a promotion |
| HrisEvents.PromotionNextTitle | hris-mock/events.py:207-228 | a promotion happens exactly below the top of the ladder and names the next title up, the second title for an off-ladder title |
| HrisEvents.Colleagues | hris-mock/events.py:246-250 | the other generated employees of the same department |
| HrisEvents.ChangeManager | hris-mock/events.py:236-272 | nothing with fewer than two generated employees; otherwise a manager change or nothing |
| HrisEvents.ManagerIsColleague | hris-mock/events.py:245-267 | the new manager is a different employee of the same department, and there is no change exactly when there is no such colleague |
| HrisEvents.Terminate | hris-mock/events.py:274-321 | a termination is produced exactly when there are generated employees |
| HrisEvents.TerminationRules | hris-mock/events.py:285-317 | compliance hold exactly for involuntary and security terminations, effect today for a security concern, the last day worked one day before the termination date, and `active` as the previous employment status |
| HrisEvents.MoverOrLeaver | hris-mock/events.py:342-355 | the requested mover or leaver generator never produces a new hire |
| HrisEvents.EmptyMeansNewHire | hris-mock/events.py:163-281 | without generated employees every mover and leaver generator produces nothing |
| HrisEvents.HrEventGenerator.constructor | hris-mock/events.py:111-114 | the counter starts at zero with no generated employees |
| HrisEvents.HrEventGenerator.GenerateEmployeeNumber | hris-mock/events.py:116-119 | the counter goes up by one and the number is formatted from the new value |
| HrisEvents.HrEventGenerator.GenerateNewHire | hris-mock/events.py:121-155 | a new hire numbered from the incremented counter, remembered at the end of the generated employees |
| HrisEvents.HrEventGenerator.GenerateRandomEvent | hris-mock/events.py:323-361 | the requested event when its generator produces one, leaving the generator alone; otherwise a new hire |
| HrisEvents.GeneratedNumbersDistinct | hris-mock/events.py:116-147 | the generated employees carry pairwise different employee numbers |
| HrisModels.NameParts | hris-mock/models.py:90-95 | the pieces of a full name: the first name first, then the set middle name, the last name and the set suffix (two to four pieces) |
| HrisModels.DisplayNameWords | hris-mock/models.py:82-86 | the display name splits into two words: the preferred name when set (the first name otherwise) and the last name |
| HrisModels.FullNameWords | hris-mock/models.py:88-96 | the full name splits back into exactly its set parts, in order, ending with the suffix when set and the last name otherwise |
| HrisModels.PlainNameRendersOnce | hris-mock/models.py:82-96 | without middle name, suffix or preferred name, the full and display names are both `first last` |
| HrisModels.ToOktaProfile | hris-mock/models.py:255-273 | login and email are the work email; manager and managerId are null without a manager and the manager's email and id otherwise; the start date is the hire date in ISO format |
| HrisModels.ToScimUser | hris-mock/models.py:275-312 | the core and enterprise schemas, externalId the employee number, userName the work email, one primary work email, `formatted` the full name, and active exactly when the employment status is ACTIVE (sections 4.1 and 4.3 of RFC 7643) |
| HrisModels.ScimWorkPhone | hris-mock/models.py:295-297 | exactly one work phone, carrying the number, when a work phone is set, and none otherwise |
| HrisModels.ScimManagerRoundTrip | hris-mock/models.py:306-310 | the enterprise manager entry is null exactly without a manager; its value is the manager id and its `$ref` `/Users/<id>` names that id back |
| HrisModels.ProfilesAgree | hris-mock/models.py:255-312 | the Okta login is the SCIM userName, and the Okta managerId is the manager the SCIM `$ref` names |
| HrisServer.FieldOf | hris-mock/server.py:131-140 | reading an updatable field yields a value of that field's kind (text, nullable text or a status) |
| HrisServer.FieldFrame | hris-mock/server.py:329-332 | setting one field changes that field and leaves every other updatable field as it was |
| HrisServer.Requested | hris-mock/server.py:131-140 | a field the request sets carries a value of that field's kind |
| HrisServer.SetFields | hris-mock/server.py:325 | the fields a request sets form a well-typed change list naming no field twice |
| HrisServer.SetFieldsAssign | hris-mock/server.py:325 | the change list assigns to each field exactly the value the request sets, and nothing to the unset ones |
| HrisServer.Run | hris-mock/server.py:327-340 | the update loop never touches the id, employee number, names, dates or other parts an update request cannot reach |
| HrisServer.RunFields | hris-mock/server.py:327-332 | after the loop each field holds its assigned value or its old one; it is in `previous_values` exactly when it was assigned a different value, and there it holds the old value |
| HrisServer.RunEvents | hris-mock/server.py:333-340 | the loop queues department, title and manager events exactly for those fields whose assigned value differed from the original, in change order |
| HrisServer.NoMoverEvents | hris-mock/server.py:327-340 | no event is queued exactly when none of department, title and manager id is assigned a value different from the original |
| HrisServer.DeliveryTargets | hris-mock/server.py:195-201 | an endpoint receives an event exactly when it is registered, active and subscribed to the event's type |
| HrisServer.SignatureHeader | hris-mock/server.py:208 | the signature header is the configured secret, or "none" when no secret is set |
| HrisServer.UpdateLog | hris-mock/server.py:345-352 | an update logs nothing without queued events; otherwise one event per queued type in order, then one EMPLOYEE_UPDATED, all carrying the updated record and the changed previous values |
| HrisServer.Find | hris-mock/server.py:277-281 | the lookup returns the first position holding the id, or nothing when no record has it |
| HrisServer.Put | hris-mock/server.py:297 | storing under an existing id replaces that record in place; a new id is appended, keeping insertion order |
| HrisServer.PutFinds | hris-mock/server.py:297 | storing keeps ids unique, the stored id then finds the stored record, and every other id finds what it found before |
| HrisServer.FindUnique | hris-mock/server.py:277-281 | in a table with unique ids, the one position holding an id is the one found |
| HrisServer.FindStable | hris-mock/server.py:343 | replacing or appending records under one id leaves the lookup of every other id unchanged |
| HrisServer.FindFirst | hris-mock/server.py:277-281 | the first position holding an id is the one found |
| HrisServer.NewEmployee | hris-mock/server.py:285-295 | a new record has the given id, is PENDING, is displayed as `first last`, copies the request's fields and has no termination |
| HrisServer.TerminatedRecord | hris-mock/server.py:374-378 | a termination sets the status to TERMINATED and records the date and type, changing no other field |
| HrisServer.MatchingEmployees | hris-mock/server.py:267-271 | an employee is listed exactly when it is in the table and has the requested status and department, whichever were given; the list is the table filtered by that test, in table order |
| HrisServer.EmployeesPageWindow | hris-mock/server.py:259-273 | `EmployeesPage` is the `[offset:offset+limit]` window of the matching employees in table order, at most `limit` long and empty past the end |
| HrisServer.MatchingEvents | hris-mock/server.py:436-440 | an event is listed exactly when it is in the log and has the requested type and employee id, whichever were given; the list is the log filtered by that test, in log order |
| HrisServer.EventsPageRecent | hris-mock/server.py:429-442 | for a positive limit `EventsPage` is the last `limit` matching events, or all of them when fewer match |
| HrisServer.ScimView | hris-mock/server.py:466-486 | the SCIM user carries the id, the employee number as externalId, the email as userName and sole primary email, the manager id, and is active exactly for ACTIVE employees |
| HrisServer.ScimListUsers | hris-mock/server.py:489-495 | totalResults counts every user, and startIndex and itemsPerPage echo the request |
| HrisServer.ScimListWindow | hris-mock/server.py:460-496 | for a 1-based start the resources are the views of the `count` users from that position on, or as many as remain (section 3.4.2.4 of RFC 7644) |
| HrisServer.ScimGetUser | hris-mock/server.py:500-524 | 404 exactly for an unknown id; otherwise the view of that record, with that id |
| HrisServer.HrisStore.constructor | hris-mock/server.py:175-177 | the server starts with no employees, no events and no webhooks |
| HrisServer.HrisStore.TriggerEvent | hris-mock/server.py:221-239 | exactly one event is appended to the log, built from the type, the record snapshot and the previous values; nothing else changes |
| HrisServer.HrisStore.GetEmployee | hris-mock/server.py:277-281 | 404 exactly when no record has the id; otherwise a stored record with that id |
| HrisServer.HrisStore.CreateEmployee | hris-mock/server.py:285-304 | the new PENDING record is stored under its id and exactly one EMPLOYEE_CREATED event is logged; ids stay unique |
| HrisServer.HrisStore.UpdateEmployee | hris-mock/server.py:308-355 | 404 with nothing changed for an unknown id; otherwise the record is replaced in place by the update loop's result and the update's events are appended |
| HrisServer.HrisStore.ApplyChanges | hris-mock/server.py:327-340 | the loop over the set fields returns exactly `Run` of the changes: the updated record, the previous values and the queued events |
| HrisServer.HrisStore.PublishUpdate | hris-mock/server.py:345-352 | the queued mover events and the closing EMPLOYEE_UPDATED are appended to the log, and nothing else changes |
| HrisServer.HrisStore.TerminateEmployee | hris-mock/server.py:359-395 | 404 with nothing changed for an unknown id; otherwise the terminated record replaces the old one and one EMPLOYEE_TERMINATED event carries the previous status, compliance hold and reason |
| HrisServer.HrisStore.CreateWebhook | hris-mock/server.py:409-413 | the subscription is appended to the registered webhooks |
| HrisServer.HrisStore.DeleteWebhook | hris-mock/server.py:417-421 | exactly the subscriptions with another URL remain, in order |
| HrisServer.UpdateSemantics | hris-mock/server.py:308-343 | an update changes exactly the request's fields whose value differs, records each with its old value, keeps the record's identity and queues events only for department, title and manager changes |
| HrisServer.UpdateQuiet | hris-mock/server.py:333-352 | an update logs nothing exactly when it assigns no new department, title or manager id |
| Reports.DurationPositive | access-certification/reports.py:222-225 | a campaign whose valid scheduled start precedes its end lasts a positive number of days, counted to the actual end when there is one |
| Reports.ThresholdInIntegers | access-certification/reports.py:227-239 | the completion rate reaches 95% exactly when there are items and 100 times the decided items reach 95 times the total |
| Reports.StampedMappings | access-certification/reports.py:234-241 | the evidence holds one copy of every control of every requested framework's table, each carrying the verdict and the campaign reference |
| Reports.Evidence | access-certification/reports.py:55-64 | `CampaignEvidence` requires a start and an end date: the evidence fails exactly when the campaign has no scheduled start or neither an actual nor a scheduled end, and otherwise carries those dates and the days between them |
| Reports.EvidenceControls | access-certification/reports.py:209-264 | when the evidence can be built, every control mapping is satisfied exactly when the completion rate reaches 95%, and names `Campaign-<id>` as its evidence |
| Reports.DefaultControls | access-certification/reports.py:130-179 | the default frameworks map the three SOC2 controls and then the two ISO27001 controls, in table order |
| Reports.DefaultEvidenceControls | access-certification/reports.py:217-220 | when the evidence can be built without frameworks, it maps exactly CC6.1, CC6.2, CC6.3, A.9.2.1 and A.9.2.5 |
| Reports.StampTable | access-certification/reports.py:236-241 | the loop over one table yields its stamped copies in table order |
| Reports.StampControls | access-certification/reports.py:235-241 | the loop over the frameworks yields the stamped copies of their tables, framework by framework |
| Reports.GenerateCampaignEvidence | access-certification/reports.py:209-264 | the loop-built evidence equals `Evidence`: a failure exactly when the scheduled start or both end dates are missing, otherwise defaults for missing keys, the duration, the completion rate and the stamped mappings |
| Reports.UsersOf | access-certification/reports.py:284-286 | every user id of every campaign is counted among the users reviewed |
| Reports.UsersComeFromCampaigns | access-certification/reports.py:284-286 | every user counted appears in some campaign's user ids |
| Reports.ControlsSatisfied | access-certification/reports.py:294-301 | the satisfied mappings never outnumber the mappings |
| Reports.CampaignSatisfiedCount | access-certification/reports.py:298-301 | a campaign's satisfied count equals its mapping count exactly when every one of its mappings is satisfied |
| Reports.AllSatisfiedCount | access-certification/reports.py:294-301 | the satisfied count reaches the total exactly when every mapping of every campaign is satisfied |
| Reports.ComplianceScoreBounds | access-certification/reports.py:303 | the compliance score lies between 0 and 100 and is 100 exactly when there are mappings and all are satisfied |
| Reports.RecommendationRules | access-certification/reports.py:305-318 | the revocation warning appears exactly when more than a tenth of the items were revoked, the SoD line exactly when conflicts remain open, the staggering advice exactly when active campaigns outnumber completed ones, in that order |
| Reports.CollectUsers | access-certification/reports.py:284-286 | the loop gathers exactly the distinct user ids of all campaigns |
| Reports.TallyMappings | access-certification/reports.py:298-301 | the loop over one campaign's mappings counts the satisfied ones |
| Reports.TallyControls | access-certification/reports.py:294-301 | the nested loop yields the satisfied and total mapping counts of all campaigns |
| Reports.Recommend | access-certification/reports.py:305-318 | the recommendations appended check by check are exactly `Recommendations` of the same totals |
| Reports.GenerateExecutiveSummary | access-certification/reports.py:266-346 | the loop-built summary equals `Summary`: counts and sums over the campaigns, the distinct users, the control counts and score, findings and recommendations |
| Reports.StatusCellDecides | access-certification/reports.py:401-403 | whatever precedes it, a row ends in "Yes" exactly when satisfied and in "No" exactly when not |
| Reports.MappingRowStatus | access-certification/reports.py:401-403 | a control mapping's row ends in "Yes" exactly when the mapping is satisfied |
| Reports.TrailShowsLastEvents | access-certification/reports.py:405-410 | the audit trail shows the last twenty events in order, or all when fewer, and is absent when not requested or without events |
| Reports.MarkdownFrame | access-certification/reports.py:348-419 | the markdown opens with the campaign header and closes with the footer |
| Reports.AppendRows | access-certification/reports.py:401-403 | appending row by row yields the concatenated rendering of the items, in order |
| Reports.AppendTrail | access-certification/reports.py:405-410 | the appended audit trail section is exactly `TrailText` of the evidence |
| Reports.ExportToMarkdown | access-certification/reports.py:348-419 | the markdown built step by step is exactly `Markdown` of the evidence |
| Reports.GenerateAuditPackage | access-certification/reports.py:453-496 | fails exactly when some campaign lacks a start or end date; otherwise one evidence per campaign in input order, each the `Evidence` of its campaign, the summary over the audit period, the frameworks' names, and the control counts taken from the summary |
| Reports.ControlsCoveredFromInput | access-certification/reports.py:489-495 | the package's control counts come from the campaigns' own `control_mappings` entries: campaigns without them give zero, whatever evidence was generated |
| ScimServer.BearerSplit | scim/scim_server.py:64 | splitting a Bearer header on spaces yields "Bearer" followed by the split of the rest, so element 1 is the token's first word |
| ScimServer.AuthorizeCases | scim/scim_server.py:54-73 | `Authorize` rejects a request as unauthorized exactly when the header is missing or lacks the `Bearer ` prefix, and lets it through exactly when it has the prefix and its first space-separated word after it is the configured token; otherwise the token is invalid |
| ScimServer.BearerRoundTrip | tests/test_jwt_verification.py:143-150 | a header built as `Bearer <token>` from a token without spaces carries that token and is let through |
| ScimServer.MalformedHeadersRejected | tests/test_jwt_verification.py:152-167 | the empty header, a Basic header, a Token header, a bare `Bearer` and `Bearertoken123` are all rejected as unauthorized |
| ScimServer.FirstEmail | scim/scim_server.py:166 | the first email fails exactly when the request's emails list is present and empty |
| ScimServer.PatchedClosedForm | scim/scim_server.py:205-211 | applying PATCH operations equals setting the row's active flag to the value of the last `replace active` operation, stamping it modified, and leaving the table alone when there is none or the id is unknown |
| ScimServer.LastActiveFilter | scim/scim_server.py:207-209 | the last `replace active` operation is the same whether or not the other operations are dropped first |
| ScimServer.PatchIgnoresOthers | scim/scim_server.py:207-209 | operations other than `replace active` have no effect on the table |
| ScimServer.PatchKeepsNames | scim/scim_server.py:205-211 | PATCH keeps the same ids and user names, so user names stay unique |
| ScimServer.ListUsers | scim/scim_server.py:81-113 | every stored user is listed under its id with its stored fields; totalResults and itemsPerPage are the number of users and startIndex is 1 |
| ScimServer.GetUser | scim/scim_server.py:117-147 | 404 exactly for an unknown id; otherwise the stored row's view |
| ScimServer.ScimStore.constructor | scim/scim_server.py:24-35 | the store starts empty with the configured token |
| ScimServer.ScimStore.CreateUser | scim/scim_server.py:151-193 | 500 exactly for an empty emails list; 409 exactly when the derived id or the user name is already stored; otherwise 201 and the new row under the derived id; user names stay unique |
| ScimServer.ScimStore.PutUser | scim/scim_server.py:212-231 | 500 exactly for an empty emails list, or when the id exists and another row holds the user name; an unknown id changes nothing; otherwise the row is overwritten from the request, keeping its created stamp |
| ScimServer.ScimStore.PatchUser | scim/scim_server.py:205-211 | answers 200 and leaves the table as `Patched` of the operations, which only the last active replace affects |
| ScimServer.ScimStore.DeleteUser | scim/scim_server.py:235-243 | the row with that id is gone, every other row stays, and the answer is 204 |
| ScimServer.ScimStore.Serve | scim/scim_server.py:53-76 | without an accepted Bearer token every request gets 401 and changes nothing; with one, each request gets its handler's status and user table: list 200, get 200 or 404 by presence, create 201/409/500, put 200/500, patch 200 with the patched table, delete 204 with the id removed |
| SamlSp.PrepareRequest | apps/flask-saml-sp/app.py:39-62 | no request without "://" in the URL; otherwise https is "on" or "off", the host holds no "/", the port defaults to 5000, and path, query arguments, form and query string are passed on |
| SamlSp.NoSlashInHost | apps/flask-saml-sp/app.py:52 | the text before the first "/" holds no "/" |
| SamlSp.PrepareRoundTrip | apps/flask-saml-sp/app.py:50-58 | for a URL built from a scheme, a host and a path, https is "on" exactly for the https scheme and the host comes back unchanged |
| SamlSp.StoreAssertion | apps/flask-saml-sp/app.py:118-124 | a login stores the attributes, name id, its format and qualifiers and the session index under their six keys, and keeps every other session entry |
| SamlSp.IndexPage | apps/flask-saml-sp/app.py:65-78 | the dashboard, showing the stored attributes, exactly when a login is in the session; the login page otherwise |
| SamlSp.AttributesView | apps/flask-saml-sp/app.py:213-224 | back to the index exactly without a login; the attributes page exactly with one |
| SamlSp.SpSession.constructor | apps/flask-saml-sp/app.py:65-78 | a new session is empty |
| SamlSp.SpSession.Acs | apps/flask-saml-sp/app.py:91-131 | errors give 400 and an unauthenticated response 401, both leaving the session alone; otherwise the assertion is stored and the user goes to the library's redirect for the relay state unless it is this page, else to the index |
| SamlSp.SpSession.Logout | apps/flask-saml-sp/app.py:183-210 | the logout request carries the stored name id, session index, qualifiers and format, read before the session is emptied; afterwards the index shows the login page |
| SamlSp.SpSession.SingleLogout | apps/flask-saml-sp/app.py:156-180 | the session is cleared exactly when the library ran its callback, before errors are looked at; errors give 400, otherwise a redirect to the library's URL or the index |
| SamlSp.LoginShowsUser | apps/flask-saml-sp/app.py:103-131 | after a login the index and attributes pages show the asserted name id and attributes, and a logout would carry all five asserted logout values |

## Left out

- Concurrency: `asyncio.gather`, `create_task` and `sleep` are not modelled. A parallel batch is evaluated element by element, with results aligned to inputs, the same as a sequential one.
- Time: the polling deadline is a bound on the number of status polls. Wall-clock time, `datetime.utcnow()` and `date.today()` are parameters.
- HTTP transport (the connector's `requests` session, the server's `httpx` webhook posts, the event sender and CLI): I/O. A non-mock connector call is represented by the request it would send. HrisServer.DeliveryTargets models only which endpoints receive an event.
- Ids: uuid values, `hash()`-derived SCIM ids and audit package ids are parameters. The SCIM id function is an opaque function of the user name.
- Randomness: Faker and `random` draws are the fields of a `Draws` record. A `random.choice` is an index taken modulo the list length.
- HrisEvents.ConfigOk: the generators require a configuration with a location, two different departments and no empty title ladder. Otherwise the source's `random.choice` fails on an empty list. The default configuration meets it.
- Floating point: percentages are exact reals, and the 95% and 10% thresholds are also proved in integer form.
- Campaigns.CompletionBounds: is stated about the percentage before `round(..., 2)`, because the rounding is not modelled.
- Formatting: `:.1f` is modelled as rounding the exact value to one decimal, with halves rounded up (Text.Fixed1). Python rounds the binary double instead, and the two can differ at exact halves.
- Text.Upper: maps only the ASCII letters a to z. Python's `str.upper` also maps other letters and can lengthen a string (`ß` becomes `SS`); the model covers department names whose first three characters are ASCII, as in the default configuration.
- HrisEvents.DepartmentCode: its length bound (at most three characters) and the cost-centre text built from it hold only for such ASCII department names, because of Text.Upper.
- HrisEvents.HireShape: the department-id clause uses the ASCII Text.Upper, so it states Python's behaviour only for ASCII department names.
- HrisServer.HrisStore.CreateEmployee: pydantic's `EmailStr` check on the new employee's email and manager email, which answers 422 before the handler runs, is not modelled; any string is accepted.
- HrisServer.HrisStore.UpdateEmployee: the `EmailStr` check on `manager_email` (422 before the handler) is not modelled; any string is accepted.
- Audit events: the `AuditEvent` type of Reports maps strings to strings. The source's events are `Dict[str, Any]` and the trail renders each value with an f-string, so a present non-string value (a number, a date, `None`) appears as Python's `str()` of it; the model has only string values.
- SamlSp.SpSession.Acs: the library's `redirect_to` is a parameter that maps the relay state to a URL; the library raising inside it is not modelled.
- Triggers.SimulatedEvent: the `simulate_event` defaults (`user123`, `test@example.com`, `{}` metadata) are modelled as optional parameters that fall back to those values.
- Python values: payload entries that are not strings are read as absent (Executor.GetStr).
- HrisServer.HrisStore.UpdateEmployee: an update request can leave a field unset or set it to a value, and `manager_id` and `manager_email` can also be set explicitly to null. An explicit null on `department`, `department_id`, `title`, `location`, `cost_center` or `employment_status`, which the source would write onto the record with `setattr`, is not modelled.
- Record timestamps (`created_at`, `updated_at`, `meta.lastModified`) are left out. SCIM rows keep `created` and `modified` as given strings.
- HRIS employee record fields: the addresses, compensation, security clearance and custom attributes are not modelled. Nothing in the core reads them.
- SQLite: the SCIM users table is a map, so `list_users` does not give a row order. The SCIM groups endpoints are not part of this model.
- SCIM requests: a request missing a key the handler indexes directly (`data['userName']`, `op['op']`) is not modelled. Requests are typed records.
- SAML library: its processing and signature checks are not modelled; its verdicts are inputs. `saml_login`, `metadata` and the HTML templates are not part of this model.
- Reports: `export_to_json` is pydantic serialisation and is not modelled.
- Campaigns.CampaignManager: reviewers and access items are values, so the sharing of Python objects is not modelled (AssignReviewer, AddAccessItems, RecordDecision). `assign_reviewer` updates and stores the caller's `Reviewer` object, and `add_access_items` stores the caller's `AccessItem` objects, which `record_decision` then changes in place. One object handed to two campaigns, or kept by the caller, would show a later assignment or decision everywhere it is held. In the model each campaign keeps its own copy.
- Campaigns: `create_sod_review_campaign` and `create_role_attestation_campaign` are not part of this model.
- HRIS server: `load_demo_data`, the root health endpoint, `list_webhooks` and the `list_departments` reference data are not part of this model.
- Not part of this model: the automation scripts under `automation/python`, the demo workflows and package re-exports under `src/integrations`, and the tests. The bearer-header rejection tests are only cited as evidence.
