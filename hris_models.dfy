/** The canonical HRIS employee record and its two outbound shapes: the Okta
    user profile and the SCIM 2.0 user resource with the enterprise extension
    (sections 4.1 and 4.3 of RFC 7643). Everything here is a pure mapping from
    one record to a dictionary. */
module HrisModels {
  import opened Base
  import opened Text
  import opened Dates

  datatype EmploymentStatus = Pending | Active | OnLeave | Suspended | Terminated
  datatype EmploymentType = FullTime | PartTime | Contractor | Intern | Temporary | Consultant
  datatype TerminationType =
    | Voluntary | Involuntary | Retirement | ContractEnd | Layoff | SecurityConcern | Death | MutualAgreement
  datatype WorkerType = Staff | Contingent | Vendor | Partner

  /** The enum values as they appear in the outbound dictionaries. */
  function EmploymentTypeValue(t: EmploymentType): string {
    match t
    case FullTime => "full_time"
    case PartTime => "part_time"
    case Contractor => "contractor"
    case Intern => "intern"
    case Temporary => "temporary"
    case Consultant => "consultant"
  }

  function WorkerTypeValue(w: WorkerType): string {
    match w
    case Staff => "employee"
    case Contingent => "contingent"
    case Vendor => "vendor"
    case Partner => "partner"
  }

  datatype Name = Name(
    firstName: string,
    lastName: string,
    middleName: Option<string>,
    preferredName: Option<string>,
    suffix: Option<string>,
    honorific: Option<string>)

  datatype ContactInfo = ContactInfo(
    workEmail: string,
    personalEmail: Option<string>,
    workPhone: Option<string>,
    mobilePhone: Option<string>,
    homePhone: Option<string>)

  datatype Department = Department(
    id: string,
    name: string,
    code: string,
    parentId: Option<string>,
    costCenter: Option<string>,
    managerId: Option<string>)

  datatype JobPosition = JobPosition(
    title: string,
    jobCode: Option<string>,
    jobFamily: Option<string>,
    jobLevel: Option<string>,
    isManager: bool,
    isExecutive: bool)

  datatype Manager = Manager(id: string, employeeNumber: string, email: string, name: string)

  datatype Location = Location(id: string, name: string, code: string, timezone: Option<string>, isRemote: bool)

  datatype Employment = Employment(
    status: EmploymentStatus,
    employmentType: EmploymentType,
    workerType: WorkerType,
    hireDate: Date,
    originalHireDate: Option<Date>,
    terminationDate: Option<Date>,
    terminationType: Option<TerminationType>,
    lastDayWorked: Option<Date>)

  datatype Employee = Employee(
    id: string,
    employeeNumber: string,
    externalId: Option<string>,
    name: Name,
    contact: ContactInfo,
    department: Department,
    position: JobPosition,
    manager: Option<Manager>,
    location: Location,
    employment: Employment)

  // ---------------------------------------------------------------------
  // Names
  // ---------------------------------------------------------------------

  /** A name part that `split(" ")` keeps in one piece. */
  predicate OneWord(s: string) {
    ' ' !in s
  }

  /** The given name shown to people: the preferred name when it is set. */
  function GivenName(n: Name): string {
    if IsSet(n.preferredName) then n.preferredName.value else n.firstName
  }

  /** `Name.display_name`. */
  function DisplayName(n: Name): string {
    GivenName(n) + " " + n.lastName
  }

  /** The pieces `Name.full_name` joins: the first name, the middle name if
      set, the last name and the suffix if set. */
  function NameParts(n: Name): (parts: seq<string>)
    ensures 2 <= |parts| <= 4
    ensures parts[0] == n.firstName
  {
    [n.firstName] + (if IsSet(n.middleName) then [n.middleName.value] else []) +
    [n.lastName] + (if IsSet(n.suffix) then [n.suffix.value] else [])
  }

  /** `Name.full_name`. */
  function FullName(n: Name): string {
    Join(NameParts(n), ' ')
  }

  /** The display name is two words: the preferred name when it is set (the
      first name otherwise) and the last name. */
  lemma DisplayNameWords(n: Name)
    requires OneWord(n.firstName) && OneWord(n.lastName)
    requires IsSet(n.preferredName) ==> OneWord(n.preferredName.value)
    ensures Split(DisplayName(n), ' ') == [GivenName(n), n.lastName]
    ensures IsSet(n.preferredName) ==> Split(DisplayName(n), ' ')[0] == n.preferredName.value
    ensures !IsSet(n.preferredName) ==> Split(DisplayName(n), ' ')[0] == n.firstName
  {
    var parts := [GivenName(n), n.lastName];
    assert Join(parts, ' ') == DisplayName(n) by {
      assert parts[1..] == [n.lastName];
    }
    SplitJoin(parts, ' ');
  }

  /** The full name separates back into exactly its set parts, in order:
      single spaces, no empty middle or suffix pieces. */
  lemma FullNameWords(n: Name)
    requires OneWord(n.firstName) && OneWord(n.lastName)
    requires IsSet(n.middleName) ==> OneWord(n.middleName.value)
    requires IsSet(n.suffix) ==> OneWord(n.suffix.value)
    ensures Split(FullName(n), ' ') == NameParts(n)
    ensures |Split(FullName(n), ' ')| == 2 + (if IsSet(n.middleName) then 1 else 0) + (if IsSet(n.suffix) then 1 else 0)
    ensures Split(FullName(n), ' ')[|NameParts(n)| - 1] == (if IsSet(n.suffix) then n.suffix.value else n.lastName)
  {
    SplitJoin(NameParts(n), ' ');
  }

  /** Without a middle name, suffix or preferred name the two renderings of a
      name coincide. */
  lemma PlainNameRendersOnce(n: Name)
    requires !IsSet(n.middleName) && !IsSet(n.suffix) && !IsSet(n.preferredName)
    ensures FullName(n) == DisplayName(n) == n.firstName + " " + n.lastName
  {
    var parts := NameParts(n);
    assert parts == [n.firstName, n.lastName];
    assert parts[1..] == [n.lastName];
    assert Join(parts, ' ') == n.firstName + [' '] + Join([n.lastName], ' ');
  }

  // ---------------------------------------------------------------------
  // Employee properties
  // ---------------------------------------------------------------------

  /** `Employee.email`: the work email. */
  function Email(e: Employee): string {
    e.contact.workEmail
  }

  /** `Employee.is_active`. */
  predicate IsActive(e: Employee) {
    e.employment.status == Active
  }

  predicate IsManager(e: Employee) {
    e.position.isManager
  }

  // ---------------------------------------------------------------------
  // Okta profile
  // ---------------------------------------------------------------------

  /** The dictionary `to_okta_profile` returns, one field per key; `None`
      stands for a null value. */
  datatype OktaProfile = OktaProfile(
    firstName: string,
    lastName: string,
    displayName: string,
    email: string,
    login: string,
    employeeNumber: string,
    department: string,
    title: string,
    manager: Option<string>,
    managerId: Option<string>,
    costCenter: Option<string>,
    location: string,
    startDate: string,
    employeeType: string,
    workerType: string)

  /** `Employee.to_okta_profile`. */
  function ToOktaProfile(e: Employee): (p: OktaProfile)
    ensures p.login == p.email == Email(e)
    ensures p.displayName == DisplayName(e.name)
    ensures p.manager.None? <==> e.manager.None?
    ensures p.managerId.None? <==> e.manager.None?
    ensures e.manager.Some? ==> p.manager == Some(e.manager.value.email) && p.managerId == Some(e.manager.value.id)
    ensures p.startDate == IsoFormat(e.employment.hireDate)
  {
    OktaProfile(
      firstName := e.name.firstName,
      lastName := e.name.lastName,
      displayName := DisplayName(e.name),
      email := Email(e),
      login := Email(e),
      employeeNumber := e.employeeNumber,
      department := e.department.name,
      title := e.position.title,
      manager := if e.manager.Some? then Some(e.manager.value.email) else None,
      managerId := if e.manager.Some? then Some(e.manager.value.id) else None,
      costCenter := e.department.costCenter,
      location := e.location.name,
      startDate := IsoFormat(e.employment.hireDate),
      employeeType := EmploymentTypeValue(e.employment.employmentType),
      workerType := WorkerTypeValue(e.employment.workerType))
  }

  // ---------------------------------------------------------------------
  // SCIM user
  // ---------------------------------------------------------------------

  const CoreUserSchema := "urn:ietf:params:scim:schemas:core:2.0:User"
  const EnterpriseUserSchema := "urn:ietf:params:scim:schemas:extension:enterprise:2.0:User"
  const UsersPath := "/Users/"

  /** The SCIM resource `to_scim_user` returns, one field per attribute. */
  datatype ScimName = ScimName(givenName: string, familyName: string, middleName: Option<string>, formatted: string)
  datatype ScimEmail = ScimEmail(value: string, kind: string, primary: bool)
  datatype ScimPhone = ScimPhone(value: string, kind: string)
  datatype ScimManager = ScimManager(value: string, ref: string, displayName: string)
  datatype EnterpriseExtension = EnterpriseExtension(
    employeeNumber: string,
    costCenter: Option<string>,
    organization: string,
    division: Option<string>,
    department: string,
    manager: Option<ScimManager>)
  datatype ScimUser = ScimUser(
    schemas: seq<string>,
    id: string,
    externalId: string,
    userName: string,
    name: ScimName,
    displayName: string,
    emails: seq<ScimEmail>,
    phoneNumbers: seq<ScimPhone>,
    active: bool,
    title: string,
    enterprise: EnterpriseExtension)

  /** The `phoneNumbers` list: the work phone, when it is set. */
  function PhoneNumbers(c: ContactInfo): seq<ScimPhone> {
    if IsSet(c.workPhone) then [ScimPhone(c.workPhone.value, "work")] else []
  }

  /** The enterprise extension's manager entry (section 4.3 of RFC 7643). */
  function ManagerEntry(m: Option<Manager>): Option<ScimManager> {
    match m
    case None => None
    case Some(mgr) => Some(ScimManager(mgr.id, UsersPath + mgr.id, mgr.name))
  }

  /** `Employee.to_scim_user`. */
  function ToScimUser(e: Employee): (u: ScimUser)
    ensures u.schemas == [CoreUserSchema, EnterpriseUserSchema]
    ensures u.id == e.id && u.externalId == e.employeeNumber
    ensures u.userName == Email(e) && u.emails == [ScimEmail(Email(e), "work", true)]
    ensures u.active <==> IsActive(e)
    ensures u.name.formatted == FullName(e.name) && u.displayName == DisplayName(e.name)
  {
    ScimUser(
      schemas := [CoreUserSchema, EnterpriseUserSchema],
      id := e.id,
      externalId := e.employeeNumber,
      userName := Email(e),
      name := ScimName(e.name.firstName, e.name.lastName, e.name.middleName, FullName(e.name)),
      displayName := DisplayName(e.name),
      emails := [ScimEmail(Email(e), "work", true)],
      phoneNumbers := PhoneNumbers(e.contact),
      active := IsActive(e),
      title := e.position.title,
      enterprise := EnterpriseExtension(
        employeeNumber := e.employeeNumber,
        costCenter := e.department.costCenter,
        organization := e.department.name,
        division := e.department.parentId,
        department := e.department.name,
        manager := ManagerEntry(e.manager)))
  }

  /** A SCIM client's reading of the manager reference: the id after
      "/Users/" in `$ref`, or none when there is no manager entry. */
  function ReferencedManager(u: ScimUser): Option<string> {
    match u.enterprise.manager
    case None => None
    case Some(m) => if StartsWith(m.ref, UsersPath) then Some(m.ref[|UsersPath|..]) else None
  }

  /** The SCIM user lists one work phone exactly when the work phone is set,
      carrying that number, and no phone otherwise. */
  lemma ScimWorkPhone(e: Employee)
    ensures |ToScimUser(e).phoneNumbers| == 1 <==> IsSet(e.contact.workPhone)
    ensures |ToScimUser(e).phoneNumbers| <= 1
    ensures IsSet(e.contact.workPhone) ==> ToScimUser(e).phoneNumbers[0] == ScimPhone(e.contact.workPhone.value, "work")
  {
  }

  /** The enterprise manager entry is null without a manager; otherwise it
      carries the manager's id as its value, and its `$ref` resolves back to
      that id. */
  lemma ScimManagerRoundTrip(e: Employee)
    ensures ToScimUser(e).enterprise.manager.None? <==> e.manager.None?
    ensures e.manager.Some? ==> ToScimUser(e).enterprise.manager.value.value == e.manager.value.id
    ensures ReferencedManager(ToScimUser(e)) == if e.manager.Some? then Some(e.manager.value.id) else None
  {
    if e.manager.Some? {
      var ref := UsersPath + e.manager.value.id;
      assert StartsWith(ref, UsersPath) && ref[|UsersPath|..] == e.manager.value.id;
    }
  }

  /** The two outbound shapes agree: the Okta login is the SCIM user name,
      and the Okta manager id is the manager the SCIM reference names. */
  lemma ProfilesAgree(e: Employee)
    ensures ToOktaProfile(e).login == ToScimUser(e).userName
    ensures ToOktaProfile(e).managerId == ReferencedManager(ToScimUser(e))
  {
    ScimManagerRoundTrip(e);
  }
}
