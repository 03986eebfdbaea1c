/** The HR event generator: joiner, mover and leaver events built from a
    configuration and the employees generated so far. Every random choice,
    every Faker value and today's date come in as a `Draws` record, so each
    generator is a deterministic function of its draws. */
module HrisEvents {
  import opened Base
  import opened Text
  import opened Dates

  datatype Config = Config(departments: seq<string>, locations: seq<string>, titlesByDepartment: map<string, seq<string>>)

  /** The generator's default configuration. */
  const DefaultConfig := Config(
    ["Engineering", "Product", "Sales", "Marketing", "Finance", "HR", "IT", "Legal", "Operations"],
    ["San Francisco", "New York", "Seattle", "Austin", "Chicago", "Boston", "Denver", "Remote"],
    map[
      "Engineering" := ["Software Engineer", "Senior Software Engineer", "Staff Engineer", "Principal Engineer", "Engineering Manager"],
      "Product" := ["Product Manager", "Senior Product Manager", "Director of Product", "VP Product"],
      "Sales" := ["Account Executive", "Senior AE", "Sales Manager", "Director of Sales"],
      "Marketing" := ["Marketing Specialist", "Marketing Manager", "Director of Marketing", "CMO"],
      "Finance" := ["Financial Analyst", "Senior Analyst", "Finance Manager", "Controller", "CFO"],
      "HR" := ["HR Coordinator", "HR Business Partner", "HR Manager", "Director of HR", "CHRO"],
      "IT" := ["IT Support", "Systems Administrator", "IT Manager", "Director of IT", "CIO"],
      "Legal" := ["Paralegal", "Associate Counsel", "Senior Counsel", "General Counsel"],
      "Operations" := ["Operations Analyst", "Operations Manager", "Director of Operations", "COO"]
    ])

  /** A configuration every `random.choice` of the generators can draw
      from: some location, two different departments, and no empty ladder. */
  predicate ConfigOk(c: Config) {
    && |c.locations| > 0
    && |c.departments| > 0
    && (exists i :: 0 <= i < |c.departments| && c.departments[i] != c.departments[0])
    && forall d :: d in c.titlesByDepartment ==> |c.titlesByDepartment[d]| > 0
  }

  lemma DefaultConfigOk()
    ensures ConfigOk(DefaultConfig)
  {
    assert DefaultConfig.departments[1] != DefaultConfig.departments[0];
  }

  /** `titles_by_department.get(department, ["Analyst"])`. */
  function Ladder(c: Config, department: string): (titles: seq<string>)
    requires ConfigOk(c)
    ensures |titles| > 0
  {
    if department in c.titlesByDepartment then c.titlesByDepartment[department] else ["Analyst"]
  }

  /** `random.choice(s)`, the draw `n` naming the element. */
  function Pick<T>(s: seq<T>, n: nat): (x: T)
    requires |s| > 0
    ensures x in s
  {
    s[n % |s|]
  }

  /** `department[:3].upper()`. */
  function DepartmentCode(department: string): (code: string)
    ensures |code| == if |department| < 3 then |department| else 3
    ensures forall i :: 0 <= i < |code| ==> code[i] == UpperChar(department[i])
  {
    Upper(FirstItems(department, 3))
  }

  /** `f"CC-{department[:3].upper()}-{n}"`. */
  function CostCenter(department: string, n: int): string {
    "CC-" + DepartmentCode(department) + "-" + IntToString(n)
  }

  /** `f"EMP{counter:05d}"`. */
  function EmployeeNumber(counter: nat): string {
    "EMP" + ZeroPad(counter, 5)
  }

  /** Different counter values give different employee numbers. */
  lemma EmployeeNumbersDistinct(m: nat, n: nat)
    requires m != n
    ensures EmployeeNumber(m) != EmployeeNumber(n)
  {
    ZeroPadInjective(m, n, 5);
    assert EmployeeNumber(m)[3..] == ZeroPad(m, 5);
    assert EmployeeNumber(n)[3..] == ZeroPad(n, 5);
  }

  datatype TerminationType = Voluntary | Involuntary | ContractEnd | SecurityConcern
  datatype EventKind = NewHireKind | TransferKind | PromotionKind | ManagerChangeKind | TerminationKind

  /** The outcome of every random draw one generator call may make. */
  datatype Draws = Draws(
    kind: EventKind,
    department: nat,
    title: nat,
    location: nat,
    employmentType: nat,
    employee: nat,
    manager: nat,
    costCenter: int,
    email: string,
    firstName: string,
    lastName: string,
    today: Date,
    startDate: Date,
    effectiveDate: Date,
    terminationType: TerminationType,
    terminationDate: Date)

  /** A generated employee, as the dictionary `generate_new_hire` builds. */
  datatype Hire = Hire(
    employeeNumber: string,
    email: string,
    firstName: string,
    lastName: string,
    department: string,
    departmentId: string,
    title: string,
    startDate: Date,
    location: string,
    costCenter: string,
    employmentType: string)

  datatype HrEvent =
    | NewHire(hire: Hire)
    | DepartmentTransfer(
        employeeId: string, department: string, departmentId: string, title: string, costCenter: string,
        previousDepartment: string, previousDepartmentId: Option<string>, previousTitle: string, effectiveDate: Date)
    | Promotion(employeeId: string, title: string, previousTitle: string, effectiveDate: Date)
    | ManagerChange(employeeId: string, managerId: string, managerEmail: string, previousManagerId: Option<string>, previousManagerEmail: Option<string>)
    | Termination(employeeId: string, terminationDate: Date, terminationType: TerminationType, complianceHold: bool, lastDayWorked: Date,
                  previousEmploymentStatus: string)

  // ---------------------------------------------------------------------
  // Joiner
  // ---------------------------------------------------------------------

  /** The record `generate_new_hire` builds around the employee number
      `number` it has just generated. */
  function HireRecord(c: Config, number: string, d: Draws): (h: Hire)
    requires ConfigOk(c)
  {
    var department := Pick(c.departments, d.department);
    Hire(
      employeeNumber := number,
      email := d.email,
      firstName := d.firstName,
      lastName := d.lastName,
      department := department,
      departmentId := DepartmentCode(department),
      title := Pick(FirstItems(Ladder(c, department), 3), d.title),
      startDate := d.startDate,
      location := Pick(c.locations, d.location),
      costCenter := CostCenter(department, d.costCenter),
      employmentType := Pick(["full_time", "contractor"], d.employmentType))
  }

  /** A new hire works in a configured department, at one of the first three
      titles of its ladder, with the department's upper-cased three-letter
      code as its department id. */
  lemma HireShape(c: Config, number: string, d: Draws)
    requires ConfigOk(c)
    ensures var h := HireRecord(c, number, d);
      && h.department in c.departments
      && h.location in c.locations
      && h.employeeNumber == number
      && (exists i :: 0 <= i < 3 && i < |Ladder(c, h.department)| && Ladder(c, h.department)[i] == h.title)
      && |h.departmentId| <= 3
      && forall i :: 0 <= i < |h.departmentId| ==> h.departmentId[i] == UpperChar(h.department[i])
  {
    var h := HireRecord(c, number, d);
    var firsts := FirstItems(Ladder(c, h.department), 3);
    var k := d.title % |firsts|;
    assert h.title == firsts[k] == Ladder(c, h.department)[k];
  }

  // ---------------------------------------------------------------------
  // Movers
  // ---------------------------------------------------------------------

  /** The departments other than the given one, in configured order. */
  function OtherDepartments(c: Config, department: string): (r: seq<string>)
    requires ConfigOk(c)
    ensures |r| > 0
    ensures forall x :: x in r <==> x in c.departments && x != department
  {
    SomeOtherDepartment(c, department);
    Filter(c.departments, x => x != department)
  }

  /** With two different departments configured, one differs from any
      given department. */
  lemma SomeOtherDepartment(c: Config, department: string)
    requires ConfigOk(c)
    ensures exists x :: x in c.departments && x != department
  {
    if department == c.departments[0] {
      var i :| 0 <= i < |c.departments| && c.departments[i] != c.departments[0];
      assert c.departments[i] in c.departments;
    } else {
      assert c.departments[0] in c.departments;
    }
  }

  /** `generate_department_transfer`. */
  function Transfer(c: Config, employees: seq<Hire>, d: Draws): (r: Option<HrEvent>)
    requires ConfigOk(c)
    ensures r.None? <==> employees == []
    ensures r.Some? ==> r.value.DepartmentTransfer?
  {
    if employees == [] then None
    else
      var e := Pick(employees, d.employee);
      var department := Pick(OtherDepartments(c, e.department), d.department);
      Some(DepartmentTransfer(
        employeeId := e.employeeNumber,
        department := department,
        departmentId := DepartmentCode(department),
        title := Pick(FirstItems(Ladder(c, department), 3), d.title),
        costCenter := CostCenter(department, d.costCenter),
        previousDepartment := e.department,
        previousDepartmentId := if e.department != "" then Some(DepartmentCode(e.department)) else None,
        previousTitle := e.title,
        effectiveDate := d.effectiveDate))
  }

  /** A transfer moves a generated employee to a configured department other
      than the one it records as previous. */
  lemma TransferElsewhere(c: Config, employees: seq<Hire>, d: Draws)
    requires ConfigOk(c) && employees != []
    ensures var t := Transfer(c, employees, d).value;
      && t.department in c.departments
      && t.department != t.previousDepartment
      && exists i :: 0 <= i < |employees| && employees[i].employeeNumber == t.employeeId && employees[i].department == t.previousDepartment
  {
    var k := d.employee % |employees|;
    assert employees[k] == Pick(employees, d.employee);
  }

  /** `titles.index(title) if title in titles else 0`. */
  function Position(titles: seq<string>, title: string): (i: nat)
    ensures title in titles ==> i < |titles| && titles[i] == title && forall j :: 0 <= j < i ==> titles[j] != title
    ensures title !in titles ==> i == 0
    decreases |titles|
  {
    if titles == [] || titles[0] == title then 0
    else if title !in titles[1..] then 0
    else 1 + Position(titles[1..], title)
  }

  /** `generate_promotion`. */
  function Promote(c: Config, employees: seq<Hire>, d: Draws): (r: Option<HrEvent>)
    requires ConfigOk(c)
    ensures r.Some? ==> r.value.Promotion?
  {
    if employees == [] then None
    else
      var e := Pick(employees, d.employee);
      var titles := Ladder(c, e.department);
      var i := Position(titles, e.title);
      if i < |titles| - 1 then Some(Promotion(e.employeeNumber, titles[i + 1], e.title, d.today))
      else None
  }

  /** A promotion happens exactly when the employee's title is below the top
      of its ladder (a title off the ladder counting as the bottom), and
      names the next title up. */
  lemma PromotionNextTitle(c: Config, employees: seq<Hire>, d: Draws)
    requires ConfigOk(c) && employees != []
    ensures var e := Pick(employees, d.employee);
      var titles := Ladder(c, e.department);
      var r := Promote(c, employees, d);
      && (r.Some? <==> Position(titles, e.title) < |titles| - 1)
      && (r.Some? ==> r.value.title == titles[Position(titles, e.title) + 1] && r.value.previousTitle == e.title)
      && (r.Some? && e.title !in titles ==> r.value.title == titles[1])
  {
  }

  /** The colleagues who could become the employee's manager: everyone else
      in the same department. */
  function Colleagues(employees: seq<Hire>, e: Hire): (r: seq<Hire>)
    ensures forall m :: m in r <==> m in employees && m.employeeNumber != e.employeeNumber && m.department == e.department
  {
    Filter(employees, (m: Hire) => m.employeeNumber != e.employeeNumber && m.department == e.department)
  }

  /** `generate_manager_change`. */
  function ChangeManager(employees: seq<Hire>, d: Draws): (r: Option<HrEvent>)
    ensures |employees| < 2 ==> r.None?
    ensures r.Some? ==> r.value.ManagerChange?
  {
    if |employees| < 2 then None
    else
      var e := Pick(employees, d.employee);
      var candidates := Colleagues(employees, e);
      if candidates == [] then None
      else
        var m := Pick(candidates, d.manager);
        Some(ManagerChange(e.employeeNumber, m.employeeNumber, m.email, None, None))
  }

  /** The new manager is another generated employee of the same department;
      there is no change when the employee has no such colleague. */
  lemma ManagerIsColleague(employees: seq<Hire>, d: Draws)
    requires |employees| >= 2
    ensures var e := Pick(employees, d.employee);
      var r := ChangeManager(employees, d);
      && (r.None? <==> Colleagues(employees, e) == [])
      && (r.Some? ==>
            && r.value.employeeId == e.employeeNumber
            && r.value.managerId != e.employeeNumber
            && exists m :: m in employees && m.department == e.department && m.employeeNumber == r.value.managerId && m.email == r.value.managerEmail)
  {
    var e := Pick(employees, d.employee);
    var candidates := Colleagues(employees, e);
    if candidates != [] {
      var m := Pick(candidates, d.manager);
      assert m in employees;
    }
  }

  // ---------------------------------------------------------------------
  // Leaver
  // ---------------------------------------------------------------------

  /** Draws a termination can use: a valid today that is not the first
      representable day, and a later valid scheduled date. */
  predicate DatesOk(d: Draws) {
    Valid(d.today) && d.today != Date(MinYear, 1, 1) && Valid(d.terminationDate) && Before(d.today, d.terminationDate)
  }

  /** Involuntary and security terminations put the account on compliance
      hold. */
  predicate ComplianceHold(t: TerminationType) {
    t == Involuntary || t == SecurityConcern
  }

  /** `generate_termination`. */
  function Terminate(employees: seq<Hire>, d: Draws): (r: Option<HrEvent>)
    requires DatesOk(d)
    ensures r.None? <==> employees == []
    ensures r.Some? ==> r.value.Termination?
  {
    if employees == [] then None
    else
      var e := Pick(employees, d.employee);
      var date := if d.terminationType == SecurityConcern then d.today else d.terminationDate;
      assert date != Date(MinYear, 1, 1);
      Some(Termination(e.employeeNumber, date, d.terminationType, ComplianceHold(d.terminationType), PreviousDay(date).value,
                       "active"))
  }

  /** A termination holds exactly the involuntary and security ones, takes
      effect today for a security concern, and has its last day worked one
      day before it takes effect. */
  lemma TerminationRules(employees: seq<Hire>, d: Draws)
    requires DatesOk(d) && employees != []
    ensures var t := Terminate(employees, d).value;
      && (t.complianceHold <==> t.terminationType in {Involuntary, SecurityConcern})
      && (t.terminationType == SecurityConcern ==> t.terminationDate == d.today)
      && (t.terminationType != SecurityConcern ==> t.terminationDate == d.terminationDate)
      && Ordinal(t.lastDayWorked) == Ordinal(t.terminationDate) - 1
      && Valid(t.lastDayWorked)
      && t.previousEmploymentStatus == "active"
  {
    var t := Terminate(employees, d).value;
    assert t.terminationDate != Date(MinYear, 1, 1);
    PreviousDayOrdinal(t.terminationDate);
  }

  /** The mover or leaver event the draws ask for; none when the generator
      cannot produce it, or when the draws ask for a new hire. */
  function MoverOrLeaver(c: Config, employees: seq<Hire>, d: Draws): (r: Option<HrEvent>)
    requires ConfigOk(c) && DatesOk(d)
    ensures r.Some? ==> !r.value.NewHire?
  {
    match d.kind
    case NewHireKind => None
    case TransferKind => Transfer(c, employees, d)
    case PromotionKind => Promote(c, employees, d)
    case ManagerChangeKind => ChangeManager(employees, d)
    case TerminationKind => Terminate(employees, d)
  }

  /** Without generated employees only a new hire can be produced. */
  lemma EmptyMeansNewHire(c: Config, d: Draws)
    requires ConfigOk(c) && DatesOk(d)
    ensures MoverOrLeaver(c, [], d).None?
  {
  }

  // ---------------------------------------------------------------------
  // The generator
  // ---------------------------------------------------------------------

  class HrEventGenerator {
    const config: Config
    var employeeCounter: nat
    var generatedEmployees: seq<Hire>
    /** The counter value each generated employee was numbered with. */
    ghost var numbers: seq<nat>

    /** Each generated employee carries the number of a counter value already
        issued, and those values increase along the list. */
    ghost predicate Valid()
      reads this
    {
      && |numbers| == |generatedEmployees|
      && (forall i :: 0 <= i < |numbers| ==> generatedEmployees[i].employeeNumber == EmployeeNumber(numbers[i]) && numbers[i] <= employeeCounter)
      && (forall i, j :: 0 <= i < j < |numbers| ==> numbers[i] < numbers[j])
    }

    constructor(config: Config)
      ensures Valid()
      ensures this.config == config && employeeCounter == 0 && generatedEmployees == []
    {
      this.config := config;
      employeeCounter := 0;
      generatedEmployees := [];
      numbers := [];
    }

    /** `generate_employee_number`. */
    method GenerateEmployeeNumber() returns (n: string)
      requires Valid()
      modifies this
      ensures Valid()
      ensures employeeCounter == old(employeeCounter) + 1
      ensures n == EmployeeNumber(employeeCounter)
      ensures generatedEmployees == old(generatedEmployees) && numbers == old(numbers)
    {
      employeeCounter := employeeCounter + 1;
      n := EmployeeNumber(employeeCounter);
    }

    /** `generate_new_hire`: number a new employee and remember it. */
    method GenerateNewHire(d: Draws) returns (ev: HrEvent)
      requires Valid() && ConfigOk(config)
      modifies this
      ensures Valid()
      ensures employeeCounter == old(employeeCounter) + 1
      ensures ev == NewHire(HireRecord(config, EmployeeNumber(employeeCounter), d))
      ensures generatedEmployees == old(generatedEmployees) + [ev.hire]
    {
      var number := GenerateEmployeeNumber();
      var hire := HireRecord(config, number, d);
      generatedEmployees := generatedEmployees + [hire];
      numbers := numbers + [employeeCounter];
      ev := NewHire(hire);
    }

    /** `generate_random_event`: the requested event, falling back to a new
        hire when the requested generator produces none. */
    method GenerateRandomEvent(d: Draws) returns (ev: HrEvent)
      requires Valid() && ConfigOk(config) && DatesOk(d)
      modifies this
      ensures Valid()
      ensures MoverOrLeaver(config, old(generatedEmployees), d).Some? ==>
        && ev == MoverOrLeaver(config, old(generatedEmployees), d).value
        && employeeCounter == old(employeeCounter) && generatedEmployees == old(generatedEmployees)
      ensures MoverOrLeaver(config, old(generatedEmployees), d).None? ==>
        && ev == NewHire(HireRecord(config, EmployeeNumber(old(employeeCounter) + 1), d))
        && employeeCounter == old(employeeCounter) + 1
        && generatedEmployees == old(generatedEmployees) + [ev.hire]
    {
      var chosen := MoverOrLeaver(config, generatedEmployees, d);
      if chosen.Some? {
        ev := chosen.value;
      } else {
        ev := GenerateNewHire(d);
      }
    }
  }

  /** The generated employees carry pairwise different employee numbers. */
  lemma GeneratedNumbersDistinct(g: HrEventGenerator, i: nat, j: nat)
    requires g.Valid()
    requires i < j < |g.generatedEmployees|
    ensures g.generatedEmployees[i].employeeNumber != g.generatedEmployees[j].employeeNumber
  {
    EmployeeNumbersDistinct(g.numbers[i], g.numbers[j]);
  }
}
