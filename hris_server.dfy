/** The HRIS mock server: an in-memory employee table kept in insertion
    order, an append-only event log of joiner, mover and leaver events, the
    webhook subscriptions those events are routed to, and the read-only REST
    and SCIM listings over them. */
module HrisServer {
  import opened Base
  import opened Dates

  datatype Status = Active | Pending | Terminated | OnLeave
  datatype EmploymentType = FullTime | PartTime | Contractor | Intern
  datatype TerminationType = Voluntary | Involuntary | Retirement | ContractEnd | SecurityConcern
  datatype EventType =
    | EmployeeCreated | EmployeeUpdated | EmployeeTerminated | DepartmentChanged | ManagerChanged | TitleChanged

  function StatusValue(s: Status): string {
    match s
    case Active => "active"
    case Pending => "pending"
    case Terminated => "terminated"
    case OnLeave => "on_leave"
  }

  datatype Employee = Employee(
    id: string,
    employeeNumber: string,
    email: string,
    firstName: string,
    lastName: string,
    displayName: Option<string>,
    department: string,
    departmentId: string,
    title: string,
    managerId: Option<string>,
    managerEmail: Option<string>,
    status: Status,
    employmentType: EmploymentType,
    startDate: Date,
    terminationDate: Option<Date>,
    terminationType: Option<TerminationType>,
    location: string,
    costCenter: string,
    workPhone: Option<string>,
    mobilePhone: Option<string>)

  /** The body of a create request. */
  datatype EmployeeCreate = EmployeeCreate(
    employeeNumber: string,
    email: string,
    firstName: string,
    lastName: string,
    department: string,
    departmentId: string,
    title: string,
    managerId: Option<string>,
    managerEmail: Option<string>,
    employmentType: EmploymentType,
    startDate: Date,
    location: string,
    costCenter: string)

  /** The body of a termination request. */
  datatype TerminationRequest = TerminationRequest(
    terminationDate: Date,
    terminationType: TerminationType,
    complianceHold: bool,
    lastDayWorked: Option<Date>,
    reason: Option<string>)

  // ---------------------------------------------------------------------
  // Updatable fields
  // ---------------------------------------------------------------------

  /** The fields of an update request, in declaration order. */
  datatype Field =
    | DepartmentField | DepartmentIdField | TitleField | ManagerIdField
    | ManagerEmailField | LocationField | CostCenterField | StatusField

  /** A field's value: text, nullable text, or an employment status. */
  datatype FieldValue = Text(s: string) | Nullable(o: Option<string>) | StatusOf(status: Status)

  /** An update request; `None` is a field the request left unset, so a
      nullable field explicitly set to null is `Some(None)`. */
  datatype EmployeeUpdate = EmployeeUpdate(
    department: Option<string>,
    departmentId: Option<string>,
    title: Option<string>,
    managerId: Option<Option<string>>,
    managerEmail: Option<Option<string>>,
    location: Option<string>,
    costCenter: Option<string>,
    status: Option<Status>)

  /** The updatable fields in declaration order. */
  const AllFields: seq<Field> := [
    DepartmentField, DepartmentIdField, TitleField, ManagerIdField,
    ManagerEmailField, LocationField, CostCenterField, StatusField]

  /** Whether a value has the kind the field holds. */
  predicate Fits(f: Field, v: FieldValue) {
    match f
    case ManagerIdField => v.Nullable?
    case ManagerEmailField => v.Nullable?
    case StatusField => v.StatusOf?
    case _ => v.Text?
  }

  /** `getattr(employee, field)`. */
  function FieldOf(e: Employee, f: Field): (v: FieldValue)
    ensures Fits(f, v)
  {
    match f
    case DepartmentField => Text(e.department)
    case DepartmentIdField => Text(e.departmentId)
    case TitleField => Text(e.title)
    case ManagerIdField => Nullable(e.managerId)
    case ManagerEmailField => Nullable(e.managerEmail)
    case LocationField => Text(e.location)
    case CostCenterField => Text(e.costCenter)
    case StatusField => StatusOf(e.status)
  }

  /** `setattr(employee, field, value)`. */
  function WithField(e: Employee, f: Field, v: FieldValue): Employee
    requires Fits(f, v)
  {
    match f
    case DepartmentField => e.(department := v.s)
    case DepartmentIdField => e.(departmentId := v.s)
    case TitleField => e.(title := v.s)
    case ManagerIdField => e.(managerId := v.o)
    case ManagerEmailField => e.(managerEmail := v.o)
    case LocationField => e.(location := v.s)
    case CostCenterField => e.(costCenter := v.s)
    case StatusField => e.(status := v.status)
  }

  /** Setting a field changes that field and nothing else. */
  lemma FieldFrame(e: Employee, f: Field, v: FieldValue, g: Field)
    requires Fits(f, v)
    ensures FieldOf(WithField(e, f, v), g) == if g == f then v else FieldOf(e, g)
  {
  }

  /** The parts of a record an update request cannot reach. */
  predicate SameIdentity(a: Employee, b: Employee) {
    a.id == b.id && a.employeeNumber == b.employeeNumber && a.email == b.email &&
    a.firstName == b.firstName && a.lastName == b.lastName && a.displayName == b.displayName &&
    a.employmentType == b.employmentType && a.startDate == b.startDate &&
    a.terminationDate == b.terminationDate && a.terminationType == b.terminationType &&
    a.workPhone == b.workPhone && a.mobilePhone == b.mobilePhone
  }

  /** The value the request sets for a field, if it sets one. */
  function Requested(u: EmployeeUpdate, f: Field): (r: Option<FieldValue>)
    ensures r.Some? ==> Fits(f, r.value)
  {
    match f
    case DepartmentField => if u.department.Some? then Some(Text(u.department.value)) else None
    case DepartmentIdField => if u.departmentId.Some? then Some(Text(u.departmentId.value)) else None
    case TitleField => if u.title.Some? then Some(Text(u.title.value)) else None
    case ManagerIdField => if u.managerId.Some? then Some(Nullable(u.managerId.value)) else None
    case ManagerEmailField => if u.managerEmail.Some? then Some(Nullable(u.managerEmail.value)) else None
    case LocationField => if u.location.Some? then Some(Text(u.location.value)) else None
    case CostCenterField => if u.costCenter.Some? then Some(Text(u.costCenter.value)) else None
    case StatusField => if u.status.Some? then Some(StatusOf(u.status.value)) else None
  }

  type Change = (Field, FieldValue)

  /** Every change assigns a value of the field's kind. */
  predicate WellTyped(cs: seq<Change>) {
    forall i :: 0 <= i < |cs| ==> Fits(cs[i].0, cs[i].1)
  }

  function RequestOf(u: EmployeeUpdate): Field -> Option<FieldValue> {
    f => Requested(u, f)
  }

  /** `updates.dict(exclude_unset=True).items()`: the fields the request sets,
      in declaration order, each once. */
  function SetFields(u: EmployeeUpdate): (cs: seq<Change>)
    ensures WellTyped(cs) && DistinctKeys(cs)
  {
    CollectDistinct(AllFields, RequestOf(u));
    Collect(AllFields, RequestOf(u))
  }

  /** The request's set fields assign exactly what the request sets. */
  lemma SetFieldsAssign(u: EmployeeUpdate, f: Field)
    ensures Lookup(SetFields(u), f) == Requested(u, f)
  {
    assert f in AllFields;
    CollectLookup(AllFields, RequestOf(u), f);
  }

  // ---------------------------------------------------------------------
  // Change detection
  // ---------------------------------------------------------------------

  /** The update loop's variables: the employee, `previous_values` and
      `events_to_trigger`. */
  datatype UpdateState = UpdateState(emp: Employee, previous: map<Field, FieldValue>, events: seq<EventType>)

  /** The mover event a changed field calls for, if any. */
  function EventFor(f: Field): seq<EventType> {
    match f
    case DepartmentField => [DepartmentChanged]
    case TitleField => [TitleChanged]
    case ManagerIdField => [ManagerChanged]
    case _ => []
  }

  /** One pass of the update loop: a field whose value differs is recorded
      with its old value, set, and may call for an event. */
  function Step(st: UpdateState, c: Change): UpdateState
    requires Fits(c.0, c.1)
  {
    var before := FieldOf(st.emp, c.0);
    if before != c.1 then UpdateState(WithField(st.emp, c.0, c.1), st.previous[c.0 := before], st.events + EventFor(c.0))
    else st
  }

  /** The update loop run over the changes. */
  function Run(e: Employee, cs: seq<Change>): (st: UpdateState)
    requires WellTyped(cs)
    ensures SameIdentity(st.emp, e)
    decreases |cs|
  {
    if cs == [] then UpdateState(e, map[], [])
    else Step(Run(e, cs[..|cs| - 1]), cs[|cs| - 1])
  }

  /** The events the changes call for, judged against the original record. */
  function ChangedEvents(e: Employee, cs: seq<Change>): seq<EventType>
    decreases |cs|
  {
    if cs == [] then []
    else
      var c := cs[|cs| - 1];
      ChangedEvents(e, cs[..|cs| - 1]) + if FieldOf(e, c.0) != c.1 then EventFor(c.0) else []
  }

  /** With no field assigned twice, the update loop leaves each field at its
      assigned value (or untouched), and records exactly the fields whose
      value differed, each with its original value. */
  lemma {:induction false} RunFields(e: Employee, cs: seq<Change>, f: Field)
    requires WellTyped(cs) && DistinctKeys(cs)
    ensures FieldOf(Run(e, cs).emp, f) == Lookup(cs, f).GetOr(FieldOf(e, f))
    ensures f in Run(e, cs).previous <==> Lookup(cs, f).Some? && Lookup(cs, f).value != FieldOf(e, f)
    ensures f in Run(e, cs).previous ==> Run(e, cs).previous[f] == FieldOf(e, f)
    decreases |cs|
  {
    if cs != [] {
      var init := cs[..|cs| - 1];
      var c := cs[|cs| - 1];
      assert WellTyped(init) && DistinctKeys(init);
      RunFields(e, init, f);
      RunFields(e, init, c.0);
      assert Lookup(init, c.0).None? by {
        LookupAbsent(init, c.0);
      }
      FieldFrame(Run(e, init).emp, c.0, c.1, f);
    }
  }

  /** The update loop queues the events of the fields whose value differed
      from the original record, in the order of the changes. */
  lemma {:induction false} RunEvents(e: Employee, cs: seq<Change>)
    requires WellTyped(cs) && DistinctKeys(cs)
    ensures Run(e, cs).events == ChangedEvents(e, cs)
    decreases |cs|
  {
    if cs != [] {
      var init := cs[..|cs| - 1];
      var c := cs[|cs| - 1];
      assert WellTyped(init) && DistinctKeys(init);
      RunEvents(e, init);
      RunFields(e, init, c.0);
      LookupAbsent(init, c.0);
    }
  }

  /** No event is queued exactly when none of department, title and manager
      id is assigned a new value. */
  lemma {:induction false} NoMoverEvents(e: Employee, cs: seq<Change>)
    requires DistinctKeys(cs)
    ensures ChangedEvents(e, cs) == [] <==>
      forall f :: EventFor(f) != [] && Lookup(cs, f).Some? ==> Lookup(cs, f).value == FieldOf(e, f)
    decreases |cs|
  {
    if cs != [] {
      var init := cs[..|cs| - 1];
      var c := cs[|cs| - 1];
      assert DistinctKeys(init);
      NoMoverEvents(e, init);
      LookupAbsent(init, c.0);
    }
  }

  // ---------------------------------------------------------------------
  // Events and webhooks
  // ---------------------------------------------------------------------

  /** The `previous_values` an event carries. */
  datatype PreviousValues =
    | NoPrevious
    | Changed(values: map<Field, FieldValue>)
    | TerminationNote(employmentStatus: string, complianceHold: bool, terminationReason: Option<string>)

  /** A logged event with a snapshot of the employee. */
  datatype WebhookEvent = WebhookEvent(
    eventType: EventType,
    employeeId: string,
    employeeEmail: string,
    data: Employee,
    previous: PreviousValues)

  function EventOf(t: EventType, e: Employee, previous: PreviousValues): WebhookEvent {
    WebhookEvent(t, e.id, e.email, e, previous)
  }

  datatype WebhookConfig = WebhookConfig(url: string, events: seq<EventType>, secret: Option<string>, active: bool)

  /** The endpoints `send_webhook` posts an event to, in registration order. */
  function DeliveryTargets(configs: seq<WebhookConfig>, ev: WebhookEvent): (r: seq<WebhookConfig>)
    ensures forall c :: c in r <==> c in configs && c.active && ev.eventType in c.events
  {
    Filter(configs, (c: WebhookConfig) => c.active && ev.eventType in c.events)
  }

  /** The signature header: the secret, or "none" when it is unset. */
  function SignatureHeader(c: WebhookConfig): (h: string)
    ensures IsSet(c.secret) ==> h == c.secret.value
    ensures !IsSet(c.secret) ==> h == "none"
  {
    if IsSet(c.secret) then c.secret.value else "none"
  }

  /** The events an update logs: one per queued mover event, then one
      general update event, all carrying the final record and the full
      `previous_values`; nothing when no mover event was queued. */
  function UpdateLog(emp: Employee, st: UpdateState): (log: seq<WebhookEvent>)
    ensures st.events == [] ==> log == []
    ensures st.events != [] ==> |log| == |st.events| + 1 && log[|st.events|].eventType == EmployeeUpdated
    ensures forall i :: 0 <= i < |st.events| ==> log[i].eventType == st.events[i]
    ensures forall i :: 0 <= i < |log| ==> log[i].data == emp && log[i].previous == Changed(st.previous)
  {
    if st.events == [] then []
    else MapSeq(st.events, t => EventOf(t, emp, Changed(st.previous))) + [EventOf(EmployeeUpdated, emp, Changed(st.previous))]
  }

  // ---------------------------------------------------------------------
  // The employee table
  // ---------------------------------------------------------------------

  /** Distinct employees have distinct ids, as the keys of a dict. */
  predicate UniqueIds(s: seq<Employee>) {
    forall i, j :: 0 <= i < j < |s| ==> s[i].id != s[j].id
  }

  /** The position of the employee with the given id. */
  function Find(s: seq<Employee>, id: string): (r: Option<nat>)
    ensures r.Some? ==> r.value < |s| && s[r.value].id == id
    ensures r.Some? ==> forall i :: 0 <= i < r.value ==> s[i].id != id
    ensures r.None? ==> forall i :: 0 <= i < |s| ==> s[i].id != id
    decreases |s|
  {
    if s == [] then None
    else if s[0].id == id then Some(0)
    else match Find(s[1..], id)
      case None => None
      case Some(k) => Some(k + 1)
  }

  /** `employees_db[employee.id] = employee`: an existing key keeps its
      position, a new key goes last. */
  function Put(s: seq<Employee>, e: Employee): (r: seq<Employee>)
    ensures Find(s, e.id).Some? ==> r == s[Find(s, e.id).value := e]
    ensures Find(s, e.id).None? ==> r == s + [e]
  {
    match Find(s, e.id)
    case Some(k) => s[k := e]
    case None => s + [e]
  }

  /** Storing a record keeps the ids unique; afterwards that id finds the
      new record and every other id finds what it found before. */
  lemma PutFinds(s: seq<Employee>, e: Employee, id: string)
    requires UniqueIds(s)
    ensures UniqueIds(Put(s, e))
    ensures Find(Put(s, e), e.id).Some? && Put(s, e)[Find(Put(s, e), e.id).value] == e
    ensures id != e.id ==> Find(Put(s, e), id) == Find(s, id)
  {
    var r := Put(s, e);
    match Find(s, e.id)
    case Some(k) =>
      FindUnique(r, e.id, k);
      if id != e.id {
        FindStable(s, r, id, e.id);
      }
    case None =>
      FindUnique(r, e.id, |s|);
      if id != e.id {
        FindStable(s, r, id, e.id);
      }
  }

  /** In a table with unique ids, an id sits at the one position holding it. */
  lemma FindUnique(s: seq<Employee>, id: string, k: nat)
    requires k < |s| && s[k].id == id
    requires forall i :: 0 <= i < |s| && i != k ==> s[i].id != id
    ensures Find(s, id) == Some(k)
  {
  }

  /** Changing or adding records under one id does not move the others. */
  lemma FindStable(s: seq<Employee>, r: seq<Employee>, id: string, changed: string)
    requires id != changed && |s| <= |r|
    requires forall i :: 0 <= i < |s| ==> r[i].id == s[i].id || (r[i].id == changed && s[i].id == changed)
    requires forall i :: |s| <= i < |r| ==> r[i].id == changed
    ensures Find(r, id) == Find(s, id)
  {
    match Find(s, id)
    case Some(k) =>
      assert r[k].id == id;
      assert forall i :: 0 <= i < k ==> r[i].id != id;
      FindFirst(r, id, k);
    case None =>
      assert forall i :: 0 <= i < |r| ==> r[i].id != id;
  }

  /** The first position holding an id is the one found. */
  lemma FindFirst(s: seq<Employee>, id: string, k: nat)
    requires k < |s| && s[k].id == id
    requires forall i :: 0 <= i < k ==> s[i].id != id
    ensures Find(s, id) == Some(k)
  {
  }

  /** `Employee(**data, display_name=..., employment_status=PENDING)`. */
  function NewEmployee(id: string, d: EmployeeCreate): (e: Employee)
    ensures e.id == id && e.status == Pending
    ensures e.displayName == Some(d.firstName + " " + d.lastName)
    ensures e.email == d.email && e.department == d.department && e.managerId == d.managerId
    ensures e.terminationDate.None? && e.terminationType.None?
  {
    Employee(
      id := id,
      employeeNumber := d.employeeNumber,
      email := d.email,
      firstName := d.firstName,
      lastName := d.lastName,
      displayName := Some(d.firstName + " " + d.lastName),
      department := d.department,
      departmentId := d.departmentId,
      title := d.title,
      managerId := d.managerId,
      managerEmail := d.managerEmail,
      status := Pending,
      employmentType := d.employmentType,
      startDate := d.startDate,
      terminationDate := None,
      terminationType := None,
      location := d.location,
      costCenter := d.costCenter,
      workPhone := None,
      mobilePhone := None)
  }

  /** The record a termination leaves behind. */
  function TerminatedRecord(e: Employee, t: TerminationRequest): (r: Employee)
    ensures r.status == Terminated
    ensures r.terminationDate == Some(t.terminationDate) && r.terminationType == Some(t.terminationType)
    ensures SameIdentity(r, e.(terminationDate := r.terminationDate, terminationType := r.terminationType))
    ensures forall f :: f != StatusField ==> FieldOf(r, f) == FieldOf(e, f)
  {
    e.(status := Terminated, terminationDate := Some(t.terminationDate), terminationType := Some(t.terminationType))
  }

  // ---------------------------------------------------------------------
  // Listings
  // ---------------------------------------------------------------------

  /** The `list_employees` filters: the status when given, the department
      when given and non-empty. */
  predicate EmployeeMatches(e: Employee, status: Option<Status>, department: Option<string>) {
    (status.None? || e.status == status.value) && (!IsSet(department) || e.department == department.value)
  }

  function StatusIs(status: Option<Status>): Employee -> bool {
    (e: Employee) => status.None? || e.status == status.value
  }

  function DepartmentIs(department: Option<string>): Employee -> bool {
    (e: Employee) => !IsSet(department) || e.department == department.value
  }

  function EmployeeMatcher(status: Option<Status>, department: Option<string>): Employee -> bool {
    (e: Employee) => EmployeeMatches(e, status, department)
  }

  /** Filter by status, then by department: exactly the matching employees,
      in table order. */
  function MatchingEmployees(s: seq<Employee>, status: Option<Status>, department: Option<string>): (r: seq<Employee>)
    ensures forall i :: 0 <= i < |r| ==> EmployeeMatches(r[i], status, department)
    ensures forall e :: e in r <==> e in s && EmployeeMatches(e, status, department)
    ensures r == Filter(s, EmployeeMatcher(status, department))
  {
    var byStatus := Filter(s, StatusIs(status));
    var r := Filter(byStatus, DepartmentIs(department));
    FilterFilter(s, StatusIs(status), DepartmentIs(department), EmployeeMatcher(status, department));
    r
  }

  /** `list_employees`: the slice `[offset:offset+limit]` of the matching
      employees. */
  function EmployeesPage(s: seq<Employee>, status: Option<Status>, department: Option<string>, limit: int, offset: int): seq<Employee> {
    Slice(MatchingEmployees(s, status, department), offset, offset + limit)
  }

  /** Every listed employee passes both filters, and for a non-negative
      offset and limit the page is the window of at most `limit` matching
      employees starting at `offset`, in table order. */
  lemma EmployeesPageWindow(s: seq<Employee>, status: Option<Status>, department: Option<string>, limit: int, offset: int)
    requires 0 <= offset && 0 <= limit
    ensures var r := EmployeesPage(s, status, department, limit, offset);
      var matching := MatchingEmployees(s, status, department);
      && |r| <= limit
      && (offset <= |matching| ==> r == matching[offset..if offset + limit <= |matching| then offset + limit else |matching|])
      && (offset > |matching| ==> r == [])
      && (forall i :: 0 <= i < |r| ==> EmployeeMatches(r[i], status, department))
  {
    Window(MatchingEmployees(s, status, department), offset, limit);
  }

  /** The `list_events` filters: the type when given, the employee id when
      given and non-empty. */
  predicate EventMatches(ev: WebhookEvent, eventType: Option<EventType>, employeeId: Option<string>) {
    (eventType.None? || ev.eventType == eventType.value) && (!IsSet(employeeId) || ev.employeeId == employeeId.value)
  }

  function TypeIs(eventType: Option<EventType>): WebhookEvent -> bool {
    (ev: WebhookEvent) => eventType.None? || ev.eventType == eventType.value
  }

  function EmployeeIdIs(employeeId: Option<string>): WebhookEvent -> bool {
    (ev: WebhookEvent) => !IsSet(employeeId) || ev.employeeId == employeeId.value
  }

  function EventMatcher(eventType: Option<EventType>, employeeId: Option<string>): WebhookEvent -> bool {
    (ev: WebhookEvent) => EventMatches(ev, eventType, employeeId)
  }

  /** Filter by type, then by employee id: exactly the matching events, in
      log order. */
  function MatchingEvents(log: seq<WebhookEvent>, eventType: Option<EventType>, employeeId: Option<string>): (r: seq<WebhookEvent>)
    ensures forall i :: 0 <= i < |r| ==> EventMatches(r[i], eventType, employeeId)
    ensures forall ev :: ev in r <==> ev in log && EventMatches(ev, eventType, employeeId)
    ensures r == Filter(log, EventMatcher(eventType, employeeId))
  {
    var byType := Filter(log, TypeIs(eventType));
    var r := Filter(byType, EmployeeIdIs(employeeId));
    FilterFilter(log, TypeIs(eventType), EmployeeIdIs(employeeId), EventMatcher(eventType, employeeId));
    r
  }

  /** `list_events`: the last `limit` matching events. */
  function EventsPage(log: seq<WebhookEvent>, eventType: Option<EventType>, employeeId: Option<string>, limit: int): seq<WebhookEvent> {
    LastItems(MatchingEvents(log, eventType, employeeId), limit)
  }

  /** The listed events pass both filters and are the most recent matching
      ones: for a positive limit at most `limit` of them, ending with the
      newest match. */
  lemma EventsPageRecent(log: seq<WebhookEvent>, eventType: Option<EventType>, employeeId: Option<string>, limit: int)
    requires limit > 0
    ensures var r := EventsPage(log, eventType, employeeId, limit);
      var matching := MatchingEvents(log, eventType, employeeId);
      && |r| == (if limit < |matching| then limit else |matching|)
      && r == matching[|matching| - |r|..]
      && (forall i :: 0 <= i < |r| ==> EventMatches(r[i], eventType, employeeId))
  {
    var matching := MatchingEvents(log, eventType, employeeId);
    var r := EventsPage(log, eventType, employeeId, limit);
    if limit >= |matching| {
      assert matching[0..] == matching;
    }
    assert r == matching[|matching| - |r|..];
    forall i | 0 <= i < |r|
      ensures EventMatches(r[i], eventType, employeeId)
    {
      assert r[i] == matching[|matching| - |r| + i];
    }
  }

  // ---------------------------------------------------------------------
  // SCIM listing
  // ---------------------------------------------------------------------

  const CoreUserSchema := "urn:ietf:params:scim:schemas:core:2.0:User"
  const ListResponseSchema := "urn:ietf:params:scim:api:messages:2.0:ListResponse"

  /** The SCIM user the server's SCIM endpoints build from a record. */
  datatype ScimUser = ScimUser(
    schemas: seq<string>,
    id: string,
    externalId: string,
    userName: string,
    givenName: string,
    familyName: string,
    formatted: Option<string>,
    emails: seq<(string, bool)>,
    active: bool,
    title: string,
    employeeNumber: string,
    department: string,
    managerValue: Option<string>)

  function ScimView(e: Employee): (u: ScimUser)
    ensures u.active <==> e.status == Active
    ensures u.id == e.id && u.userName == e.email && u.externalId == e.employeeNumber
    ensures u.emails == [(e.email, true)] && u.managerValue == e.managerId
  {
    ScimUser([CoreUserSchema], e.id, e.employeeNumber, e.email, e.firstName, e.lastName, e.displayName,
             [(e.email, true)], e.status == Active, e.title, e.employeeNumber, e.department, e.managerId)
  }

  datatype ListResponse = ListResponse(schemas: seq<string>, totalResults: int, startIndex: int, itemsPerPage: int, resources: seq<ScimUser>)

  /** `scim_list_users`: every user counted, the 1-based window of `count`
      users from `startIndex` returned. */
  function ScimListUsers(s: seq<Employee>, startIndex: int, count: int): (r: ListResponse)
    ensures r.totalResults == |s| && r.startIndex == startIndex && r.itemsPerPage == count
  {
    var users := MapSeq(s, ScimView);
    ListResponse([ListResponseSchema], |users|, startIndex, count, Slice(users, startIndex - 1, startIndex - 1 + count))
  }

  /** For a 1-based start and a non-negative count, the resources are the
      views of the `count` users from `startIndex` on, or as many as remain
      (section 3.4.2.4 of RFC 7644). */
  lemma ScimListWindow(s: seq<Employee>, startIndex: int, count: int)
    requires 1 <= startIndex && 0 <= count
    ensures var r := ScimListUsers(s, startIndex, count).resources;
      && |r| == (if startIndex - 1 + count <= |s| then count else if startIndex - 1 <= |s| then |s| - (startIndex - 1) else 0)
      && forall k :: 0 <= k < |r| ==> r[k] == ScimView(s[startIndex - 1 + k])
  {
    Window(MapSeq(s, ScimView), startIndex - 1, count);
  }

  /** `scim_get_user`: 404 for an unknown id. */
  function ScimGetUser(s: seq<Employee>, id: string): (r: Result<ScimUser, int>)
    ensures r.Failure? <==> Find(s, id).None?
    ensures r.Failure? ==> r.error == 404
    ensures r.Success? ==> r.value == ScimView(s[Find(s, id).value]) && r.value.id == id
  {
    match Find(s, id)
    case None => Failure(404)
    case Some(k) => Success(ScimView(s[k]))
  }

  // ---------------------------------------------------------------------
  // The store
  // ---------------------------------------------------------------------

  /** The module-level `employees_db`, `event_log` and `webhook_configs`. */
  class HrisStore {
    var employees: seq<Employee>
    var eventLog: seq<WebhookEvent>
    var webhooks: seq<WebhookConfig>

    ghost predicate Valid()
      reads this
    {
      UniqueIds(employees)
    }

    constructor()
      ensures Valid()
      ensures employees == [] && eventLog == [] && webhooks == []
    {
      employees := [];
      eventLog := [];
      webhooks := [];
    }

    /** `trigger_event`: log exactly one event (its delivery to
        `DeliveryTargets` is fire-and-forget). */
    method TriggerEvent(t: EventType, e: Employee, previous: PreviousValues) returns (ev: WebhookEvent)
      modifies this
      ensures ev == EventOf(t, e, previous)
      ensures eventLog == old(eventLog) + [ev]
      ensures employees == old(employees) && webhooks == old(webhooks)
    {
      ev := EventOf(t, e, previous);
      eventLog := eventLog + [ev];
    }

    /** `get_employee`. */
    function GetEmployee(id: string): (r: Result<Employee, int>)
      reads this
      ensures r.Failure? <==> forall i :: 0 <= i < |employees| ==> employees[i].id != id
      ensures r.Failure? ==> r.error == 404
      ensures r.Success? ==> r.value in employees && r.value.id == id
    {
      match Find(employees, id)
      case None => Failure(404)
      case Some(k) => Success(employees[k])
    }

    /** `create_employee`: store a PENDING record and log one
        employee.created event. */
    method CreateEmployee(id: string, d: EmployeeCreate) returns (e: Employee)
      requires Valid()
      modifies this
      ensures Valid()
      ensures e == NewEmployee(id, d)
      ensures employees == Put(old(employees), e)
      ensures eventLog == old(eventLog) + [EventOf(EmployeeCreated, e, NoPrevious)]
      ensures webhooks == old(webhooks)
    {
      e := NewEmployee(id, d);
      PutFinds(employees, e, id);
      employees := Put(employees, e);
      var _ := TriggerEvent(EmployeeCreated, e, NoPrevious);
    }

    /** `update_employee`: 404 for an unknown id; otherwise the changed
        fields are set and recorded, and the mover events logged. */
    method UpdateEmployee(id: string, u: EmployeeUpdate) returns (r: Result<Employee, int>)
      requires Valid()
      modifies this
      ensures Valid()
      ensures r.Failure? <==> Find(old(employees), id).None?
      ensures r.Failure? ==> r.error == 404 && employees == old(employees) && eventLog == old(eventLog)
      ensures r.Success? ==>
        var st := Run(old(employees)[Find(old(employees), id).value], SetFields(u));
        && r.value == st.emp
        && employees == old(employees)[Find(old(employees), id).value := r.value]
        && eventLog == old(eventLog) + UpdateLog(r.value, st)
      ensures webhooks == old(webhooks)
    {
      var found := Find(employees, id);
      if found.None? {
        return Failure(404);
      }
      var k := found.value;
      var st := ApplyChanges(employees[k], SetFields(u));
      var emp := st.emp;
      employees := employees[k := emp];
      assert UniqueIds(employees) by {
        assert forall i :: 0 <= i < |employees| ==> employees[i].id == old(employees)[i].id;
      }
      PublishUpdate(emp, st);
      r := Success(emp);
    }

    /** The loop of `update_employee`: set each field whose value differs,
        remembering its old value and the event it calls for. */
    static method ApplyChanges(original: Employee, cs: seq<Change>) returns (st: UpdateState)
      requires WellTyped(cs)
      ensures st == Run(original, cs)
    {
      var emp, previous, events := original, map[], [];
      for i := 0 to |cs|
        invariant UpdateState(emp, previous, events) == Run(original, cs[..i])
      {
        assert cs[..i + 1][..i] == cs[..i];
        var (field, value) := cs[i];
        var oldValue := FieldOf(emp, field);
        if oldValue != value {
          previous := previous[field := oldValue];
          emp := WithField(emp, field, value);
          events := events + EventFor(field);
        }
      }
      assert cs[..|cs|] == cs;
      st := UpdateState(emp, previous, events);
    }

    /** The tail of `update_employee`: one event per queued mover event, then
        employee.updated, when any was queued. */
    method PublishUpdate(emp: Employee, st: UpdateState)
      modifies this
      ensures eventLog == old(eventLog) + UpdateLog(emp, st)
      ensures employees == old(employees) && webhooks == old(webhooks)
    {
      if st.events != [] {
        var f := t => EventOf(t, emp, Changed(st.previous));
        for j := 0 to |st.events|
          invariant eventLog == old(eventLog) + MapSeq(st.events[..j], f)
          invariant employees == old(employees) && webhooks == old(webhooks)
        {
          assert st.events[..j + 1][..j] == st.events[..j];
          var _ := TriggerEvent(st.events[j], emp, Changed(st.previous));
        }
        assert st.events[..|st.events|] == st.events;
        var _ := TriggerEvent(EmployeeUpdated, emp, Changed(st.previous));
      }
    }

    /** `terminate_employee`: 404 for an unknown id; otherwise the record is
        TERMINATED with the request's date and type, and one
        employee.terminated event records the prior status and the
        compliance hold. */
    method TerminateEmployee(id: string, t: TerminationRequest) returns (r: Result<Employee, int>)
      requires Valid()
      modifies this
      ensures Valid()
      ensures r.Failure? <==> Find(old(employees), id).None?
      ensures r.Failure? ==> r.error == 404 && employees == old(employees) && eventLog == old(eventLog)
      ensures r.Success? ==>
        var before := old(employees)[Find(old(employees), id).value];
        && r.value == TerminatedRecord(before, t)
        && employees == old(employees)[Find(old(employees), id).value := r.value]
        && eventLog == old(eventLog) + [EventOf(EmployeeTerminated, r.value,
             TerminationNote(StatusValue(before.status), t.complianceHold, t.reason))]
      ensures webhooks == old(webhooks)
    {
      var found := Find(employees, id);
      if found.None? {
        return Failure(404);
      }
      var k := found.value;
      var before := employees[k];
      var emp := TerminatedRecord(before, t);
      employees := employees[k := emp];
      assert UniqueIds(employees) by {
        assert forall i :: 0 <= i < |employees| ==> employees[i].id == old(employees)[i].id;
      }
      var _ := TriggerEvent(EmployeeTerminated, emp, TerminationNote(StatusValue(before.status), t.complianceHold, t.reason));
      r := Success(emp);
    }

    /** `create_webhook`. */
    method CreateWebhook(c: WebhookConfig)
      modifies this
      ensures webhooks == old(webhooks) + [c]
      ensures employees == old(employees) && eventLog == old(eventLog)
    {
      webhooks := webhooks + [c];
    }

    /** `delete_webhook`: drop every subscription with that URL. */
    method DeleteWebhook(url: string)
      modifies this
      ensures webhooks == Filter(old(webhooks), (c: WebhookConfig) => c.url != url)
      ensures forall c :: c in webhooks <==> c in old(webhooks) && c.url != url
      ensures employees == old(employees) && eventLog == old(eventLog)
    {
      webhooks := Filter(webhooks, (c: WebhookConfig) => c.url != url);
    }
  }

  /** An update changes exactly the request's fields whose value differs,
      records each with its old value, keeps the identity of the record, and
      logs events only when department, title or manager id changed. */
  lemma UpdateSemantics(e: Employee, u: EmployeeUpdate, f: Field)
    ensures var st := Run(e, SetFields(u));
      && SameIdentity(st.emp, e)
      && FieldOf(st.emp, f) == Requested(u, f).GetOr(FieldOf(e, f))
      && (f in st.previous <==> Requested(u, f).Some? && Requested(u, f).value != FieldOf(e, f))
      && (f in st.previous ==> st.previous[f] == FieldOf(e, f))
      && st.events == ChangedEvents(e, SetFields(u))
  {
    SetFieldsAssign(u, f);
    RunFields(e, SetFields(u), f);
    RunEvents(e, SetFields(u));
  }

  /** An update logs nothing exactly when it changes none of department,
      title and manager id. */
  lemma UpdateQuiet(e: Employee, u: EmployeeUpdate)
    ensures UpdateLog(Run(e, SetFields(u)).emp, Run(e, SetFields(u))) == [] <==>
      forall f :: EventFor(f) != [] && Requested(u, f).Some? ==> Requested(u, f).value == FieldOf(e, f)
  {
    var cs := SetFields(u);
    RunEvents(e, cs);
    NoMoverEvents(e, cs);
    forall f {
      SetFieldsAssign(u, f);
    }
  }
}
