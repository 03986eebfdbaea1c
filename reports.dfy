/** Compliance reporting over access certification campaigns: per-campaign
    audit evidence with control mappings stamped against a 95% completion
    threshold, an executive summary across campaigns, a markdown rendering of
    the evidence, and the audit package that bundles them. Campaigns arrive
    as the dictionaries callers assemble; a missing key takes the default the
    code supplies. */
module Reports {
  import opened Base
  import opened Text
  import opened Dates

  datatype Framework = Soc2 | Iso27001 | Nist | Hipaa | PciDss | Gdpr

  function FrameworkValue(f: Framework): string {
    match f
    case Soc2 => "SOC2"
    case Iso27001 => "ISO27001"
    case Nist => "NIST"
    case Hipaa => "HIPAA"
    case PciDss => "PCI_DSS"
    case Gdpr => "GDPR"
  }

  /** The controls the generator's tables know. */
  datatype Control =
    | LogicalAccessSecurity | AccessProvisioning | AccessRemoval
    | UserRegistration | UserAccessReview | AccountManagement

  function ControlFramework(c: Control): Framework {
    match c
    case LogicalAccessSecurity => Soc2
    case AccessProvisioning => Soc2
    case AccessRemoval => Soc2
    case UserRegistration => Iso27001
    case UserAccessReview => Iso27001
    case AccountManagement => Nist
  }

  function ControlId(c: Control): string {
    match c
    case LogicalAccessSecurity => "CC6.1"
    case AccessProvisioning => "CC6.2"
    case AccessRemoval => "CC6.3"
    case UserRegistration => "A.9.2.1"
    case UserAccessReview => "A.9.2.5"
    case AccountManagement => "AC-2"
  }

  function ControlName(c: Control): string {
    match c
    case LogicalAccessSecurity => "Logical Access Security"
    case AccessProvisioning => "Access Provisioning"
    case AccessRemoval => "Access Removal"
    case UserRegistration => "User Registration and De-registration"
    case UserAccessReview => "Review of User Access Rights"
    case AccountManagement => "Account Management"
  }

  function ControlDescription(c: Control): string {
    match c
    case LogicalAccessSecurity =>
      "The entity implements logical access security software, infrastructure, and architectures over protected information assets."
    case AccessProvisioning =>
      "Prior to issuing system credentials and granting system access, the entity registers and authorizes new internal and external users."
    case AccessRemoval =>
      "The entity removes access to protected information assets when no longer required."
    case UserRegistration =>
      "A formal user registration and de-registration process shall be implemented to enable assignment of access rights."
    case UserAccessReview =>
      "Asset owners shall review users' access rights at regular intervals."
    case AccountManagement =>
      "The organization manages information system accounts, including establishing, activating, modifying, reviewing, disabling, and removing accounts."
  }

  function ControlEvidenceType(c: Control): string {
    match c
    case LogicalAccessSecurity => "Access certification campaign completion report"
    case AccessProvisioning => "Manager certification of access assignments"
    case AccessRemoval => "Revocation decisions and completion evidence"
    case UserRegistration => "Access certification records"
    case UserAccessReview => "Quarterly access certification campaign report"
    case AccountManagement => "Access certification with remediation actions"
  }

  /** A control mapping: the control (which fixes its framework, id, name,
      description and evidence type), whether the evidence satisfies it, and
      the evidence it refers to. */
  datatype ControlMapping = ControlMapping(control: Control, satisfied: bool, evidenceReference: Option<string>)

  // ---------------------------------------------------------------------
  // Control tables
  // ---------------------------------------------------------------------

  function Soc2Controls(): seq<ControlMapping> {
    [ ControlMapping(LogicalAccessSecurity, false, None),
      ControlMapping(AccessProvisioning, false, None),
      ControlMapping(AccessRemoval, false, None) ]
  }

  function Iso27001Controls(): seq<ControlMapping> {
    [ ControlMapping(UserRegistration, false, None), ControlMapping(UserAccessReview, false, None) ]
  }

  function NistControls(): seq<ControlMapping> {
    [ ControlMapping(AccountManagement, false, None) ]
  }

  /** The report generator: the control table of each framework it maps. */
  datatype ReportGenerator = ReportGenerator(controlMappings: map<Framework, seq<ControlMapping>>)

  /** A new generator maps SOC2, ISO27001 and NIST to their tables. */
  function NewGenerator(): ReportGenerator {
    ReportGenerator(map[Soc2 := Soc2Controls(), Iso27001 := Iso27001Controls(), Nist := NistControls()])
  }

  /** The generator's table for a framework; frameworks without one have no
      controls. */
  function Controls(g: ReportGenerator, f: Framework): seq<ControlMapping> {
    if f in g.controlMappings then g.controlMappings[f] else []
  }

  // ---------------------------------------------------------------------
  // Campaign evidence
  // ---------------------------------------------------------------------

  type AuditEvent = map<string, string>

  /** The campaign dictionary a report reads; `None` is a missing key. */
  datatype CampaignData = CampaignData(
    id: Option<string>,
    name: Option<string>,
    campaignType: Option<string>,
    status: Option<string>,
    scheduledStart: Option<Date>,
    scheduledEnd: Option<Date>,
    actualEnd: Option<Date>,
    totalItems: Option<int>,
    certifiedItems: Option<int>,
    revokedItems: Option<int>,
    criticalItems: Option<int>,
    criticalRemediated: Option<int>,
    highRiskItems: Option<int>,
    sodConflictsFound: Option<int>,
    sodConflictsResolved: Option<int>,
    totalReviewers: Option<int>,
    reviewersCompleted: Option<int>,
    avgReviewTime: Option<real>,
    userIds: Option<seq<string>>,
    controlMappings: Option<seq<Dict>>,
    auditEvents: Option<seq<AuditEvent>>)

  datatype CampaignEvidence = CampaignEvidence(
    campaignId: string,
    campaignName: string,
    generatedAt: string,
    generatedBy: string,
    campaignType: string,
    startDate: Date,
    endDate: Date,
    durationDays: int,
    totalAccessItems: int,
    certifiedItems: int,
    revokedItems: int,
    completionRate: real,
    criticalItemsReviewed: int,
    highRiskItemsReviewed: int,
    sodConflictsIdentified: int,
    sodConflictsRemediated: int,
    totalReviewers: int,
    reviewersCompleted: int,
    averageReviewTimeHours: real,
    controlMappings: seq<ControlMapping>,
    auditEvents: seq<AuditEvent>)

  function DefaultEvidenceFrameworks(): seq<Framework> {
    [Soc2, Iso27001]
  }

  /** The end of a campaign: its actual end, else its scheduled end. */
  function EndDate(d: CampaignData): Option<Date> {
    if d.actualEnd.Some? then d.actualEnd else d.scheduledEnd
  }

  /** `duration_days`: days from the scheduled start to the end, or 0 when
      either is missing. */
  function Duration(d: CampaignData): int {
    if d.scheduledStart.Some? && EndDate(d).Some? then DaysBetween(d.scheduledStart.value, EndDate(d).value) else 0
  }

  /** A campaign whose valid start precedes its valid end lasts a positive
      number of days, measured to the actual end when there is one. */
  lemma DurationPositive(d: CampaignData)
    requires d.scheduledStart.Some? && EndDate(d).Some?
    requires Valid(d.scheduledStart.value) && Valid(EndDate(d).value) && Before(d.scheduledStart.value, EndDate(d).value)
    ensures Duration(d) > 0
    ensures d.actualEnd.Some? ==> Duration(d) == Ordinal(d.actualEnd.value) - Ordinal(d.scheduledStart.value)
  {
    OrdinalOrder(d.scheduledStart.value, EndDate(d).value);
  }

  lemma SignOfProduct(a: real, w: real)
    requires w > 0.0
    ensures a * w > 0.0 <==> a > 0.0
  {
    if a > 0.0 {
      assert a * w > 0.0;
    } else if a < 0.0 {
      assert (-a) * w > 0.0;
    }
  }

  /** A percentage of a positive whole reaches 95 exactly when 100 times the
      part reaches 95 times the whole. */
  lemma PercentReaches95(part: int, whole: int)
    requires whole > 0
    ensures part as real / whole as real * 100.0 >= 95.0 <==> 100 * part >= 95 * whole
  {
    var p := part as real / whole as real * 100.0;
    assert p * whole as real == part as real * 100.0;
  }

  /** A percentage of a positive whole is 100 exactly when the part is the
      whole. */
  lemma PercentIsFull(part: int, whole: int)
    requires whole > 0
    ensures part as real / whole as real * 100.0 == 100.0 <==> part == whole
  {
    var p := part as real / whole as real * 100.0;
    assert p * whole as real == part as real * 100.0;
  }

  /** A part between none and all of the whole is between 0 and 100 percent. */
  lemma PercentBounded(part: int, whole: int)
    requires 0 <= part <= whole && whole > 0
    ensures 0.0 <= part as real / whole as real * 100.0 <= 100.0
  {
    var p := part as real / whole as real * 100.0;
    assert p * whole as real == part as real * 100.0;
  }

  /** A fraction of a positive whole exceeds a tenth exactly when ten times
      the part exceeds the whole. */
  lemma TenthOf(part: int, whole: int)
    requires whole > 0
    ensures part as real / whole as real > 0.1 <==> 10 * part > whole
  {
    var x := part as real;
    var w := whole as real;
    var q := x / w;
    assert q * w == x;
    SignOfProduct(10.0 * q - 1.0, w);
    assert (10.0 * q - 1.0) * w == 10.0 * x - w;
    assert (10 * part) as real == 10.0 * x;
  }

  /** `completion_rate`: decided items over all items, as a percentage, and 0
      without items. */
  function CompletionRate(total: int, certified: int, revoked: int): real {
    if total > 0 then (certified + revoked) as real / total as real * 100.0 else 0.0
  }

  /** The 95% threshold in integers: a rate reaches it exactly when there are
      items and 100 times the decided items reach 95 times the total. */
  lemma ThresholdInIntegers(total: int, certified: int, revoked: int)
    ensures CompletionRate(total, certified, revoked) >= 95.0 <==> total > 0 && 100 * (certified + revoked) >= 95 * total
  {
    if total > 0 {
      PercentReaches95(certified + revoked, total);
    }
  }

  /** `Campaign-<id>`, where a missing id prints as `None`. */
  function EvidenceReference(d: CampaignData): string {
    "Campaign-" + (if d.id.Some? then d.id.value else "None")
  }

  function Stamp(m: ControlMapping, satisfied: bool, reference: string): ControlMapping {
    m.(satisfied := satisfied, evidenceReference := Some(reference))
  }

  function Stamper(satisfied: bool, reference: string): ControlMapping -> ControlMapping {
    (m: ControlMapping) => Stamp(m, satisfied, reference)
  }

  function StampAll(table: seq<ControlMapping>, satisfied: bool, reference: string): seq<ControlMapping> {
    MapSeq(table, Stamper(satisfied, reference))
  }

  /** The stamped copies of the tables of the first `n` frameworks, framework
      by framework. */
  function Stamped(g: ReportGenerator, frameworks: seq<Framework>, satisfied: bool, reference: string, n: nat): seq<ControlMapping>
    requires n <= |frameworks|
  {
    if n == 0 then []
    else Stamped(g, frameworks, satisfied, reference, n - 1) + StampAll(Controls(g, frameworks[n - 1]), satisfied, reference)
  }

  /** Every stamped mapping carries the verdict and the reference, and there
      are as many as the tables of the frameworks hold between them. */
  lemma {:induction false} StampedMappings(g: ReportGenerator, frameworks: seq<Framework>, satisfied: bool, reference: string, n: nat)
    requires n <= |frameworks|
    ensures var ms := Stamped(g, frameworks, satisfied, reference, n);
            |ms| == Sum(frameworks[..n], (f: Framework) => |Controls(g, f)|) &&
            forall i :: 0 <= i < |ms| ==> ms[i].satisfied == satisfied && ms[i].evidenceReference == Some(reference)
  {
    if n > 0 {
      StampedMappings(g, frameworks, satisfied, reference, n - 1);
      assert frameworks[..n][..n - 1] == frameworks[..n - 1];
    }
  }

  /** The evidence requires a start date and an end date: a campaign without
      a scheduled start, or without both an actual and a scheduled end, is
      rejected when the evidence record is built. */
  predicate HasDates(d: CampaignData) {
    d.scheduledStart.Some? && EndDate(d).Some?
  }

  const MissingDates := "CampaignEvidence: start_date and end_date are required"

  /** The evidence `generate_campaign_evidence` returns, or the validation
      error raised for a campaign without its dates. */
  function Evidence(g: ReportGenerator, d: CampaignData, generatedBy: string, frameworks: Option<seq<Framework>>, generatedAt: string)
    : (r: Result<CampaignEvidence, string>)
    ensures r.Success? <==> HasDates(d)
    ensures r.Success? ==> r.value.startDate == d.scheduledStart.value && r.value.endDate == EndDate(d).value
    ensures r.Success? ==> r.value.durationDays == DaysBetween(d.scheduledStart.value, EndDate(d).value)
  {
    if !HasDates(d) then Failure(MissingDates) else
    var fs := OrDefault(frameworks, DefaultEvidenceFrameworks());
    var total := d.totalItems.GetOr(0);
    var certified := d.certifiedItems.GetOr(0);
    var revoked := d.revokedItems.GetOr(0);
    var rate := CompletionRate(total, certified, revoked);
    Success(CampaignEvidence(
      d.id.GetOr("unknown"), d.name.GetOr("Unknown Campaign"), generatedAt, generatedBy,
      d.campaignType.GetOr("unknown"), d.scheduledStart.value, EndDate(d).value, Duration(d), total, certified, revoked, rate,
      d.criticalItems.GetOr(0), d.highRiskItems.GetOr(0), d.sodConflictsFound.GetOr(0),
      d.sodConflictsResolved.GetOr(0), d.totalReviewers.GetOr(0), d.reviewersCompleted.GetOr(0),
      d.avgReviewTime.GetOr(0.0), Stamped(g, fs, rate >= 95.0, EvidenceReference(d), |fs|),
      d.auditEvents.GetOr([])))
  }

  /** Every control mapping of the evidence is satisfied exactly when the
      completion rate reaches 95%, and refers to the campaign. */
  lemma EvidenceControls(g: ReportGenerator, d: CampaignData, generatedBy: string, frameworks: Option<seq<Framework>>, generatedAt: string)
    ensures var r := Evidence(g, d, generatedBy, frameworks, generatedAt);
            r.Success? ==>
            var e := r.value;
            var total := d.totalItems.GetOr(0);
            var decided := d.certifiedItems.GetOr(0) + d.revokedItems.GetOr(0);
            forall i :: 0 <= i < |e.controlMappings| ==>
              (e.controlMappings[i].satisfied <==> total > 0 && 100 * decided >= 95 * total) &&
              e.controlMappings[i].evidenceReference == Some(EvidenceReference(d))
  {
    var fs := OrDefault(frameworks, DefaultEvidenceFrameworks());
    var rate := CompletionRate(d.totalItems.GetOr(0), d.certifiedItems.GetOr(0), d.revokedItems.GetOr(0));
    StampedMappings(g, fs, rate >= 95.0, EvidenceReference(d), |fs|);
    ThresholdInIntegers(d.totalItems.GetOr(0), d.certifiedItems.GetOr(0), d.revokedItems.GetOr(0));
  }

  /** The default frameworks map the three SOC2 controls and then the two
      ISO27001 controls. */
  lemma DefaultControls(satisfied: bool, reference: string)
    ensures var ms := Stamped(NewGenerator(), DefaultEvidenceFrameworks(), satisfied, reference, 2);
            |ms| == 5 &&
            ms[0].control == LogicalAccessSecurity && ms[1].control == AccessProvisioning &&
            ms[2].control == AccessRemoval && ms[3].control == UserRegistration && ms[4].control == UserAccessReview
  {
    var a := StampAll(Soc2Controls(), satisfied, reference);
    var b := StampAll(Iso27001Controls(), satisfied, reference);
    assert Stamped(NewGenerator(), DefaultEvidenceFrameworks(), satisfied, reference, 1) == a;
    assert Stamped(NewGenerator(), DefaultEvidenceFrameworks(), satisfied, reference, 2) == a + b;
  }

  /** Without frameworks the evidence maps the default controls. */
  lemma DefaultEvidenceControls(d: CampaignData, generatedBy: string, generatedAt: string)
    ensures var r := Evidence(NewGenerator(), d, generatedBy, None, generatedAt);
            r.Success? ==>
            var ms := r.value.controlMappings;
            |ms| == 5 &&
            ControlId(ms[0].control) == "CC6.1" && ControlId(ms[1].control) == "CC6.2" &&
            ControlId(ms[2].control) == "CC6.3" && ControlId(ms[3].control) == "A.9.2.1" &&
            ControlId(ms[4].control) == "A.9.2.5"
  {
    var rate := CompletionRate(d.totalItems.GetOr(0), d.certifiedItems.GetOr(0), d.revokedItems.GetOr(0));
    DefaultControls(rate >= 95.0, EvidenceReference(d));
  }

  /** Stamped copies of one table's controls, in table order. */
  method StampTable(table: seq<ControlMapping>, satisfied: bool, reference: string)
    returns (copies: seq<ControlMapping>)
    ensures copies == StampAll(table, satisfied, reference)
  {
    copies := [];
    var j := 0;
    while j < |table|
      invariant 0 <= j <= |table|
      invariant copies == StampAll(table[..j], satisfied, reference)
    {
      assert table[..j + 1][..j] == table[..j];
      copies := copies + [Stamp(table[j], satisfied, reference)];
      j := j + 1;
    }
    assert table[..j] == table;
  }

  /** The stamped copies of the tables, framework by framework. */
  method StampControls(g: ReportGenerator, frameworks: seq<Framework>, satisfied: bool, reference: string)
    returns (mappings: seq<ControlMapping>)
    ensures mappings == Stamped(g, frameworks, satisfied, reference, |frameworks|)
  {
    mappings := [];
    var k := 0;
    while k < |frameworks|
      invariant 0 <= k <= |frameworks|
      invariant mappings == Stamped(g, frameworks, satisfied, reference, k)
    {
      var copies := StampTable(Controls(g, frameworks[k]), satisfied, reference);
      mappings := mappings + copies;
      k := k + 1;
    }
  }

  /** `generate_campaign_evidence`: the control mappings are built framework
      by framework, one stamped copy per table entry. */
  method GenerateCampaignEvidence(g: ReportGenerator, d: CampaignData, generatedBy: string, frameworks: Option<seq<Framework>>,
                                  generatedAt: string)
    returns (r: Result<CampaignEvidence, string>)
    ensures r == Evidence(g, d, generatedBy, frameworks, generatedAt)
  {
    if !HasDates(d) {
      return Failure(MissingDates);
    }
    var fs := OrDefault(frameworks, DefaultEvidenceFrameworks());
    var total := d.totalItems.GetOr(0);
    var certified := d.certifiedItems.GetOr(0);
    var revoked := d.revokedItems.GetOr(0);
    var rate := CompletionRate(total, certified, revoked);
    var mappings := StampControls(g, fs, rate >= 95.0, EvidenceReference(d));
    r := Success(CampaignEvidence(
      d.id.GetOr("unknown"), d.name.GetOr("Unknown Campaign"), generatedAt, generatedBy,
      d.campaignType.GetOr("unknown"), d.scheduledStart.value, EndDate(d).value, Duration(d), total, certified, revoked, rate,
      d.criticalItems.GetOr(0), d.highRiskItems.GetOr(0), d.sodConflictsFound.GetOr(0),
      d.sodConflictsResolved.GetOr(0), d.totalReviewers.GetOr(0), d.reviewersCompleted.GetOr(0),
      d.avgReviewTime.GetOr(0.0), mappings, d.auditEvents.GetOr([])));
  }

  // ---------------------------------------------------------------------
  // Executive summary
  // ---------------------------------------------------------------------

  datatype ExecutiveSummary = ExecutiveSummary(
    reportDate: Date,
    reportingPeriod: string,
    generatedBy: string,
    totalCampaigns: nat,
    completedCampaigns: nat,
    activeCampaigns: nat,
    totalUsersReviewed: nat,
    totalAccessItemsReviewed: int,
    itemsCertified: int,
    itemsRevoked: int,
    overallCertificationRate: real,
    criticalRisksIdentified: int,
    criticalRisksRemediated: int,
    sodConflictsTotal: int,
    sodConflictsResolved: int,
    frameworksCovered: seq<string>,
    controlsSatisfied: nat,
    controlsTotal: nat,
    complianceScore: real,
    keyFindings: seq<string>,
    recommendations: seq<string>)

  function StatusIs(status: string): CampaignData -> bool {
    (c: CampaignData) => c.status == Some(status)
  }

  function TotalItemsOf(c: CampaignData): int { c.totalItems.GetOr(0) }
  function CertifiedOf(c: CampaignData): int { c.certifiedItems.GetOr(0) }
  function RevokedOf(c: CampaignData): int { c.revokedItems.GetOr(0) }
  function CriticalOf(c: CampaignData): int { c.criticalItems.GetOr(0) }
  function RemediatedOf(c: CampaignData): int { c.criticalRemediated.GetOr(0) }
  function SodFoundOf(c: CampaignData): int { c.sodConflictsFound.GetOr(0) }
  function SodResolvedOf(c: CampaignData): int { c.sodConflictsResolved.GetOr(0) }

  const SatisfiedKey := "satisfied"

  predicate MappingSatisfied(m: Dict) {
    Truthy(Get(m, SatisfiedKey))
  }

  function UserIds(c: CampaignData): seq<string> { c.userIds.GetOr([]) }
  function MappingsOf(c: CampaignData): seq<Dict> { c.controlMappings.GetOr([]) }

  /** The distinct user ids of the first `n` campaigns. */
  function UsersOf(campaigns: seq<CampaignData>, n: nat): (users: set<string>)
    requires n <= |campaigns|
    ensures forall i, j :: 0 <= i < n && 0 <= j < |UserIds(campaigns[i])| ==> UserIds(campaigns[i])[j] in users
  {
    if n == 0 then {} else UsersOf(campaigns, n - 1) + Elements(UserIds(campaigns[n - 1]))
  }

  /** Every user counted appears in some campaign's user ids. */
  lemma {:induction false} UsersComeFromCampaigns(campaigns: seq<CampaignData>, n: nat, u: string)
    requires n <= |campaigns| && u in UsersOf(campaigns, n)
    ensures exists i :: 0 <= i < n && u in UserIds(campaigns[i])
  {
    if u !in UserIds(campaigns[n - 1]) {
      UsersComeFromCampaigns(campaigns, n - 1, u);
    }
  }

  /** The control mappings of the first `n` campaigns. */
  function ControlsTotal(campaigns: seq<CampaignData>, n: nat): nat
    requires n <= |campaigns|
  {
    if n == 0 then 0 else ControlsTotal(campaigns, n - 1) + |MappingsOf(campaigns[n - 1])|
  }

  /** The satisfied control mappings of the first `n` campaigns. */
  function ControlsSatisfied(campaigns: seq<CampaignData>, n: nat): (k: nat)
    requires n <= |campaigns|
    ensures k <= ControlsTotal(campaigns, n)
  {
    if n == 0 then 0 else ControlsSatisfied(campaigns, n - 1) + Count(MappingsOf(campaigns[n - 1]), MappingSatisfied)
  }

  predicate CampaignSatisfied(c: CampaignData) {
    forall j :: 0 <= j < |MappingsOf(c)| ==> MappingSatisfied(MappingsOf(c)[j])
  }

  predicate AllSatisfied(campaigns: seq<CampaignData>, n: nat)
    requires n <= |campaigns|
  {
    forall i :: 0 <= i < n ==> CampaignSatisfied(campaigns[i])
  }

  /** A campaign's mappings are all satisfied exactly when its satisfied
      count is its number of mappings. */
  lemma CampaignSatisfiedCount(c: CampaignData)
    ensures Count(MappingsOf(c), MappingSatisfied) == |MappingsOf(c)| <==> CampaignSatisfied(c)
  {
    CountAll(MappingsOf(c), MappingSatisfied);
  }

  lemma AllSatisfiedSplit(campaigns: seq<CampaignData>, n: nat)
    requires 0 < n <= |campaigns|
    ensures AllSatisfied(campaigns, n) <==> AllSatisfied(campaigns, n - 1) && CampaignSatisfied(campaigns[n - 1])
  {
  }

  /** Every mapping is satisfied exactly when the satisfied count reaches the
      total. */
  lemma {:induction false} AllSatisfiedCount(campaigns: seq<CampaignData>, n: nat)
    requires n <= |campaigns|
    ensures ControlsSatisfied(campaigns, n) == ControlsTotal(campaigns, n) <==> AllSatisfied(campaigns, n)
  {
    if n > 0 {
      AllSatisfiedCount(campaigns, n - 1);
      CampaignSatisfiedCount(campaigns[n - 1]);
      AllSatisfiedSplit(campaigns, n);
    }
  }

  function ComplianceScore(satisfied: nat, total: nat): real {
    if total > 0 then satisfied as real / total as real * 100.0 else 0.0
  }

  /** The compliance score lies in [0, 100] and is 100 exactly when there are
      mappings and all of them are satisfied. */
  lemma ComplianceScoreBounds(campaigns: seq<CampaignData>)
    ensures var total := ControlsTotal(campaigns, |campaigns|);
            var score := ComplianceScore(ControlsSatisfied(campaigns, |campaigns|), total);
            0.0 <= score <= 100.0 &&
            (score == 100.0 <==> total > 0 && AllSatisfied(campaigns, |campaigns|))
  {
    AllSatisfiedCount(campaigns, |campaigns|);
    var total := ControlsTotal(campaigns, |campaigns|);
    var satisfied := ControlsSatisfied(campaigns, |campaigns|);
    if total > 0 {
      PercentBounded(satisfied, total);
      PercentIsFull(satisfied, total);
    }
  }

  const HighRevocation := "High revocation rate (>10%) indicates need for improved provisioning controls"
  const StaggerCampaigns := "Multiple active campaigns - consider staggering to reduce reviewer fatigue"

  function SodRemediation(open: int): string {
    IntToString(open) + " SoD conflicts require remediation"
  }

  /** The recommendations, in the order the checks run. */
  function Recommendations(totalItems: int, revoked: int, sodTotal: int, sodResolved: int, active: nat, completed: nat)
    : seq<string>
  {
    (if totalItems > 0 && revoked as real / totalItems as real > 0.1 then [HighRevocation] else []) +
    (if sodTotal > 0 && sodResolved < sodTotal then [SodRemediation(sodTotal - sodResolved)] else []) +
    (if active > completed then [StaggerCampaigns] else [])
  }

  /** The revocation warning appears exactly when more than a tenth of the
      items were revoked, stated in integers. */
  lemma RecommendationRules(totalItems: int, revoked: int, sodTotal: int, sodResolved: int, active: nat, completed: nat)
    ensures Recommendations(totalItems, revoked, sodTotal, sodResolved, active, completed) ==
            (if totalItems > 0 && 10 * revoked > totalItems then [HighRevocation] else []) +
            (if sodResolved < sodTotal && sodTotal > 0 then [SodRemediation(sodTotal - sodResolved)] else []) +
            (if active > completed then [StaggerCampaigns] else [])
  {
    if totalItems > 0 {
      TenthOf(revoked, totalItems);
    }
  }

  const NoItemsReviewed := "No items reviewed"
  const CertificationRateLabel := "Certification rate: "
  const RevocationRateLabel := "Revocation rate: "

  function KeyFindings(totalItems: int, totalCampaigns: nat, certified: int, revoked: int): seq<string> {
    [ "Reviewed " + IntToString(totalItems) + " access items across " + IntToString(totalCampaigns) + " campaigns",
      if totalItems > 0 then CertificationRateLabel + Fixed1(certified as real / totalItems as real * 100.0) + "%"
      else NoItemsReviewed,
      if totalItems > 0 then RevocationRateLabel + Fixed1(revoked as real / totalItems as real * 100.0) + "%"
      else NoItemsReviewed ]
  }

  function SummaryFrameworks(): seq<string> {
    ["SOC2", "ISO27001", "NIST"]
  }

  /** The summary `generate_executive_summary` returns. */
  function Summary(campaigns: seq<CampaignData>, reportingPeriod: string, generatedBy: string, today: Date)
    : ExecutiveSummary
  {
    var completed := Count(campaigns, StatusIs("completed"));
    var active := Count(campaigns, StatusIs("active"));
    var totalItems := Sum(campaigns, TotalItemsOf);
    var certified := Sum(campaigns, CertifiedOf);
    var revoked := Sum(campaigns, RevokedOf);
    var sodTotal := Sum(campaigns, SodFoundOf);
    var sodResolved := Sum(campaigns, SodResolvedOf);
    var controlsTotal := ControlsTotal(campaigns, |campaigns|);
    var controlsSatisfied := ControlsSatisfied(campaigns, |campaigns|);
    ExecutiveSummary(
      today, reportingPeriod, generatedBy, |campaigns|, completed, active, |UsersOf(campaigns, |campaigns|)|,
      totalItems, certified, revoked,
      if totalItems > 0 then certified as real / totalItems as real * 100.0 else 0.0,
      Sum(campaigns, CriticalOf), Sum(campaigns, RemediatedOf), sodTotal, sodResolved, SummaryFrameworks(),
      controlsSatisfied, controlsTotal, ComplianceScore(controlsSatisfied, controlsTotal),
      KeyFindings(totalItems, |campaigns|, certified, revoked),
      Recommendations(totalItems, revoked, sodTotal, sodResolved, active, completed))
  }

  /** The users of all campaigns, gathered campaign by campaign. */
  method CollectUsers(campaigns: seq<CampaignData>) returns (users: set<string>)
    ensures users == UsersOf(campaigns, |campaigns|)
  {
    users := {};
    var i := 0;
    while i < |campaigns|
      invariant 0 <= i <= |campaigns|
      invariant users == UsersOf(campaigns, i)
    {
      users := users + Elements(UserIds(campaigns[i]));
      i := i + 1;
    }
  }

  /** The satisfied control mappings of one campaign, counted one mapping at
      a time. */
  method TallyMappings(mappings: seq<Dict>) returns (satisfied: nat)
    ensures satisfied == Count(mappings, MappingSatisfied)
  {
    satisfied := 0;
    var j := 0;
    while j < |mappings|
      invariant 0 <= j <= |mappings|
      invariant satisfied == Count(mappings[..j], MappingSatisfied)
    {
      CountAppend(mappings[..j], [mappings[j]], MappingSatisfied);
      assert mappings[..j + 1] == mappings[..j] + [mappings[j]];
      if MappingSatisfied(mappings[j]) {
        satisfied := satisfied + 1;
      }
      j := j + 1;
    }
    assert mappings[..j] == mappings;
  }

  /** The satisfied and total control mappings of all campaigns. */
  method TallyControls(campaigns: seq<CampaignData>) returns (satisfied: nat, total: nat)
    ensures satisfied == ControlsSatisfied(campaigns, |campaigns|)
    ensures total == ControlsTotal(campaigns, |campaigns|)
  {
    satisfied, total := 0, 0;
    var i := 0;
    while i < |campaigns|
      invariant 0 <= i <= |campaigns|
      invariant total == ControlsTotal(campaigns, i)
      invariant satisfied == ControlsSatisfied(campaigns, i)
    {
      var mappings := MappingsOf(campaigns[i]);
      var count := TallyMappings(mappings);
      total := total + |mappings|;
      satisfied := satisfied + count;
      i := i + 1;
    }
  }

  /** The recommendations, appended check by check. */
  method Recommend(totalItems: int, revoked: int, sodTotal: int, sodResolved: int, active: nat, completed: nat)
    returns (recommendations: seq<string>)
    ensures recommendations == Recommendations(totalItems, revoked, sodTotal, sodResolved, active, completed)
  {
    recommendations := [];
    if totalItems > 0 && revoked as real / totalItems as real > 0.1 {
      recommendations := recommendations + [HighRevocation];
    }
    if sodTotal > 0 && sodResolved < sodTotal {
      recommendations := recommendations + [SodRemediation(sodTotal - sodResolved)];
    }
    if active > completed {
      recommendations := recommendations + [StaggerCampaigns];
    }
  }

  /** `generate_executive_summary`, with today's date supplied: sums and
      counts over the campaigns, the distinct users gathered in a set, and the
      control mappings counted one by one. */
  method GenerateExecutiveSummary(campaigns: seq<CampaignData>, reportingPeriod: string, generatedBy: string,
                                  today: Date)
    returns (s: ExecutiveSummary)
    ensures s == Summary(campaigns, reportingPeriod, generatedBy, today)
  {
    var completed := Count(campaigns, StatusIs("completed"));
    var active := Count(campaigns, StatusIs("active"));
    var totalItems := Sum(campaigns, TotalItemsOf);
    var certified := Sum(campaigns, CertifiedOf);
    var revoked := Sum(campaigns, RevokedOf);
    var users := CollectUsers(campaigns);
    var sodTotal := Sum(campaigns, SodFoundOf);
    var sodResolved := Sum(campaigns, SodResolvedOf);
    var controlsSatisfied, controlsTotal := TallyControls(campaigns);

    var recommendations := Recommend(totalItems, revoked, sodTotal, sodResolved, active, completed);

    s := ExecutiveSummary(
      today, reportingPeriod, generatedBy, |campaigns|, completed, active, |users|,
      totalItems, certified, revoked,
      if totalItems > 0 then certified as real / totalItems as real * 100.0 else 0.0,
      Sum(campaigns, CriticalOf), Sum(campaigns, RemediatedOf), sodTotal, sodResolved, SummaryFrameworks(),
      controlsSatisfied, controlsTotal, ComplianceScore(controlsSatisfied, controlsTotal),
      KeyFindings(totalItems, |campaigns|, certified, revoked), recommendations);
  }

  // ---------------------------------------------------------------------
  // Markdown export
  // ---------------------------------------------------------------------

  const DetailsTitle := "# Access Certification Campaign Evidence\n\n## Campaign Details\n\n| Field | Value |\n|-------|-------|\n"
  const MappingsTitle := "\n## Compliance Control Mappings\n\n| Framework | Control ID | Control Name | Satisfied |\n|-----------|------------|--------------|-----------|\n"

  /** The rows of the report's header tables. */
  datatype HeaderField =
    | CampaignIdField | CampaignNameField | CampaignTypeField | StartDateField | EndDateField | DurationField
    | GeneratedAtField | GeneratedByField
    | TotalItemsField | CertifiedField | RevokedField | CompletionField
    | CriticalField | HighRiskField | SodFoundField | SodRemediatedField
    | ReviewersField | ReviewersDoneField | ReviewTimeField

  function FieldLabel(f: HeaderField): string {
    match f
    case CampaignIdField => "Campaign ID"
    case CampaignNameField => "Campaign Name"
    case CampaignTypeField => "Campaign Type"
    case StartDateField => "Start Date"
    case EndDateField => "End Date"
    case DurationField => "Duration"
    case GeneratedAtField => "Generated At"
    case GeneratedByField => "Generated By"
    case TotalItemsField => "Total Access Items"
    case CertifiedField => "Items Certified"
    case RevokedField => "Items Revoked"
    case CompletionField => "Completion Rate"
    case CriticalField => "Critical Items Reviewed"
    case HighRiskField => "High Risk Items Reviewed"
    case SodFoundField => "SoD Conflicts Identified"
    case SodRemediatedField => "SoD Conflicts Remediated"
    case ReviewersField => "Total Reviewers"
    case ReviewersDoneField => "Reviewers Completed"
    case ReviewTimeField => "Average Review Time"
  }

  function FieldValue(e: CampaignEvidence, f: HeaderField): string {
    match f
    case CampaignIdField => e.campaignId
    case CampaignNameField => e.campaignName
    case CampaignTypeField => e.campaignType
    case StartDateField => IsoFormat(e.startDate)
    case EndDateField => IsoFormat(e.endDate)
    case DurationField => IntToString(e.durationDays) + " days"
    case GeneratedAtField => e.generatedAt
    case GeneratedByField => e.generatedBy
    case TotalItemsField => IntToString(e.totalAccessItems)
    case CertifiedField => IntToString(e.certifiedItems)
    case RevokedField => IntToString(e.revokedItems)
    case CompletionField => Fixed1(e.completionRate) + "%"
    case CriticalField => IntToString(e.criticalItemsReviewed)
    case HighRiskField => IntToString(e.highRiskItemsReviewed)
    case SodFoundField => IntToString(e.sodConflictsIdentified)
    case SodRemediatedField => IntToString(e.sodConflictsRemediated)
    case ReviewersField => IntToString(e.totalReviewers)
    case ReviewersDoneField => IntToString(e.reviewersCompleted)
    case ReviewTimeField => Fixed1(e.averageReviewTimeHours) + " hours"
  }

  /** A two-column table row. */
  function Row(name: string, value: string): string {
    "| " + name + " | " + value + " |\n"
  }

  function FieldRow(e: CampaignEvidence): HeaderField -> string {
    (f: HeaderField) => Row(FieldLabel(f), FieldValue(e, f))
  }

  /** A metrics section: its heading, its table head and a row per field. */
  function MetricsSection(e: CampaignEvidence, title: string, fields: seq<HeaderField>): string {
    "\n## " + title + "\n\n| Metric | Value |\n|--------|-------|\n" + Concat(MapSeq(fields, FieldRow(e)))
  }

  /** The report up to the control mapping rows. */
  function Header(e: CampaignEvidence): string {
    DetailsTitle +
    Concat(MapSeq([CampaignIdField, CampaignNameField, CampaignTypeField, StartDateField, EndDateField,
                   DurationField, GeneratedAtField, GeneratedByField], FieldRow(e))) +
    MetricsSection(e, "Certification Metrics", [TotalItemsField, CertifiedField, RevokedField, CompletionField]) +
    MetricsSection(e, "Risk Metrics", [CriticalField, HighRiskField, SodFoundField, SodRemediatedField]) +
    MetricsSection(e, "Reviewer Metrics", [ReviewersField, ReviewersDoneField, ReviewTimeField]) +
    MappingsTitle
  }

  /** The last cell of a mapping's row. */
  function StatusCell(satisfied: bool): string {
    "| " + (if satisfied then "Yes" else "No") + " |\n"
  }

  function MappingRow(m: ControlMapping): string {
    "| " + FrameworkValue(ControlFramework(m.control)) + " | " + ControlId(m.control) + " | " +
    ControlName(m.control) + " " + StatusCell(m.satisfied)
  }

  function Field(event: AuditEvent, key: string): string {
    if key in event then event[key] else "N/A"
  }

  function EventRow(event: AuditEvent): string {
    "| " + Field(event, "timestamp") + " | " + Field(event, "event") + " | " + Field(event, "user") + " | " +
    Field(event, "details") + " |\n"
  }

  const TrailTitle := "\n## Audit Trail\n\n"
  const TrailColumns := "| Timestamp | Event | User | Details |\n"
  const TrailRule := "|-----------|-------|------|--------|\n"
  const Footer := "\n---\n\n*This report was generated for compliance audit purposes.*\n*Chainguard IT Engineer (Identity/IAM) Portfolio - Mike Dominic*\n"

  predicate HasTrail(e: CampaignEvidence, includeAuditTrail: bool) {
    includeAuditTrail && e.auditEvents != []
  }

  /** The events the audit trail shows: the last twenty. */
  function TrailEvents(e: CampaignEvidence): seq<AuditEvent> {
    LastItems(e.auditEvents, 20)
  }

  /** The audit trail section, present only when requested and there are
      events. */
  function TrailText(e: CampaignEvidence, includeAuditTrail: bool): string {
    if HasTrail(e, includeAuditTrail)
    then TrailTitle + TrailColumns + TrailRule + Concat(MapSeq(TrailEvents(e), EventRow))
    else ""
  }

  /** The markdown `export_to_markdown` returns. */
  function Markdown(e: CampaignEvidence, includeAuditTrail: bool): string {
    Header(e) + Concat(MapSeq(e.controlMappings, MappingRow)) + TrailText(e, includeAuditTrail) + Footer
  }

  /** Whatever precedes it, the status cell decides whether a row ends in
      "Yes" or in "No". */
  lemma StatusCellDecides(prefix: string, satisfied: bool)
    ensures EndsWith(prefix + StatusCell(satisfied), "| Yes |\n") <==> satisfied
    ensures EndsWith(prefix + StatusCell(satisfied), "| No |\n") <==> !satisfied
  {
    var row := prefix + StatusCell(satisfied);
    AppendEnds(prefix, StatusCell(satisfied));
    assert row[|row| - 4] == if satisfied then 's' else 'o';
    if EndsWith(row, "| Yes |\n") {
      assert row[|row| - 4] == 's';
    }
    if EndsWith(row, "| No |\n") {
      assert row[|row| - 4] == 'o';
    }
  }

  /** A control mapping's row ends in "Yes" exactly when it is satisfied,
      and in "No" otherwise. */
  lemma MappingRowStatus(m: ControlMapping)
    ensures EndsWith(MappingRow(m), "| Yes |\n") <==> m.satisfied
    ensures EndsWith(MappingRow(m), "| No |\n") <==> !m.satisfied
  {
    StatusCellDecides("| " + FrameworkValue(ControlFramework(m.control)) + " | " + ControlId(m.control) + " | " +
                      ControlName(m.control) + " ", m.satisfied);
  }

  /** The audit trail shows the last twenty events, or all of them when
      there are fewer, one row each, and is left out when not requested or
      when there are no events. */
  lemma TrailShowsLastEvents(e: CampaignEvidence, includeAuditTrail: bool)
    ensures |TrailEvents(e)| == if |e.auditEvents| < 20 then |e.auditEvents| else 20
    ensures forall k :: 0 <= k < |TrailEvents(e)| ==>
              TrailEvents(e)[k] == e.auditEvents[|e.auditEvents| - |TrailEvents(e)| + k]
    ensures TrailText(e, includeAuditTrail) == "" <==> !includeAuditTrail || e.auditEvents == []
  {
    if HasTrail(e, includeAuditTrail) {
      assert |TrailText(e, includeAuditTrail)| >= |TrailTitle|;
    }
  }

  /** The markdown opens with the header and closes with the footer. */
  lemma MarkdownFrame(e: CampaignEvidence, includeAuditTrail: bool)
    ensures StartsWith(Markdown(e, includeAuditTrail), Header(e))
    ensures EndsWith(Markdown(e, includeAuditTrail), Footer)
  {
    var rows := Concat(MapSeq(e.controlMappings, MappingRow));
    var trail := TrailText(e, includeAuditTrail);
    AppendAssoc(Header(e), rows, trail);
    AppendAssoc(Header(e), rows + trail, Footer);
    AppendEnds(Header(e), rows + trail + Footer);
    AppendEnds(Header(e) + rows + trail, Footer);
  }

  /** Appends the rendering of each item, in order. */
  method AppendRows<T>(md: string, items: seq<T>, render: T -> string) returns (r: string)
    ensures r == md + Concat(MapSeq(items, render))
  {
    r := md;
    var i := 0;
    assert r == md + Concat(MapSeq(items[..0], render));
    while i < |items|
      invariant 0 <= i <= |items|
      invariant r == md + Concat(MapSeq(items[..i], render))
    {
      assert items[..i + 1][..i] == items[..i];
      ConcatSnoc(MapSeq(items[..i], render), render(items[i]));
      r := r + render(items[i]);
      i := i + 1;
    }
    assert items[..i] == items;
  }

  /** Appends the audit trail section when it is requested and there are
      events. */
  method AppendTrail(md: string, e: CampaignEvidence, includeAuditTrail: bool) returns (r: string)
    ensures r == md + TrailText(e, includeAuditTrail)
  {
    r := md;
    if includeAuditTrail && e.auditEvents != [] {
      r := r + TrailTitle;
      r := r + TrailColumns;
      AppendAssoc(md, TrailTitle, TrailColumns);
      r := r + TrailRule;
      AppendAssoc(md, TrailTitle + TrailColumns, TrailRule);
      ghost var rows := Concat(MapSeq(LastItems(e.auditEvents, 20), EventRow));
      r := AppendRows(r, LastItems(e.auditEvents, 20), EventRow);
      AppendAssoc(md, TrailTitle + TrailColumns + TrailRule, rows);
    } else {
      assert md + "" == md;
    }
  }

  /** `export_to_markdown`: the header, a row per mapping, the optional audit
      trail and the footer, appended in turn. */
  method ExportToMarkdown(e: CampaignEvidence, includeAuditTrail: bool) returns (md: string)
    ensures md == Markdown(e, includeAuditTrail)
  {
    md := Header(e);
    md := AppendRows(md, e.controlMappings, MappingRow);
    md := AppendTrail(md, e, includeAuditTrail);
    md := md + Footer;
  }

  // ---------------------------------------------------------------------
  // Audit package
  // ---------------------------------------------------------------------

  datatype AuditPackage = AuditPackage(
    packageId: string,
    generatedAt: string,
    generatedBy: string,
    auditPeriodStart: Date,
    auditPeriodEnd: Date,
    executiveSummary: Option<ExecutiveSummary>,
    campaignEvidence: seq<CampaignEvidence>,
    frameworks: seq<string>,
    controlsCovered: nat,
    controlsSatisfied: nat)

  function MonthName(month: int): string {
    if month == 1 then "January" else if month == 2 then "February" else if month == 3 then "March"
    else if month == 4 then "April" else if month == 5 then "May" else if month == 6 then "June"
    else if month == 7 then "July" else if month == 8 then "August" else if month == 9 then "September"
    else if month == 10 then "October" else if month == 11 then "November" else "December"
  }

  /** `d.strftime('%B %d, %Y')`. */
  function LongDate(d: Date): string {
    MonthName(d.month) + " " + ZeroPad(if d.day < 0 then 0 else d.day, 2) + ", " + IntToString(d.year)
  }

  /** `generate_audit_package`, with the package id and generation time
      supplied: evidence for every campaign in input order, the executive
      summary, and the control counts taken from the summary. A campaign
      whose evidence is rejected for missing dates aborts the package. */
  method GenerateAuditPackage(campaigns: seq<CampaignData>, auditPeriodStart: Date, auditPeriodEnd: Date,
                              generatedBy: string, frameworks: Option<seq<Framework>>, packageId: string,
                              generatedAt: string, today: Date)
    returns (r: Result<AuditPackage, string>)
    ensures r.Failure? <==> exists i :: 0 <= i < |campaigns| && !HasDates(campaigns[i])
    ensures r.Failure? ==> r.error == MissingDates
    ensures r.Success? ==> |r.value.campaignEvidence| == |campaigns|
    ensures r.Success? ==> forall i :: 0 <= i < |campaigns| ==>
              Evidence(NewGenerator(), campaigns[i], generatedBy, frameworks, generatedAt) == Success(r.value.campaignEvidence[i])
    ensures r.Success? ==>
              r.value.executiveSummary ==
              Some(Summary(campaigns, LongDate(auditPeriodStart) + " - " + LongDate(auditPeriodEnd), generatedBy, today))
    ensures r.Success? ==> r.value.controlsCovered == ControlsTotal(campaigns, |campaigns|)
    ensures r.Success? ==> r.value.controlsSatisfied == ControlsSatisfied(campaigns, |campaigns|)
    ensures r.Success? ==> r.value.frameworks == MapSeq(OrDefault(frameworks, DefaultEvidenceFrameworks()), FrameworkValue)
  {
    var generator := NewGenerator();
    var fs := OrDefault(frameworks, DefaultEvidenceFrameworks());
    var evidence := [];
    var i := 0;
    while i < |campaigns|
      invariant 0 <= i <= |campaigns|
      invariant |evidence| == i
      invariant forall k :: 0 <= k < i ==> HasDates(campaigns[k])
      invariant forall k :: 0 <= k < i ==>
                  Evidence(NewGenerator(), campaigns[k], generatedBy, frameworks, generatedAt) == Success(evidence[k])
    {
      var e := GenerateCampaignEvidence(generator, campaigns[i], generatedBy, Some(fs), generatedAt);
      if e.Failure? {
        return Failure(e.error);
      }
      evidence := evidence + [e.value];
      i := i + 1;
    }
    var period := LongDate(auditPeriodStart) + " - " + LongDate(auditPeriodEnd);
    var summary := GenerateExecutiveSummary(campaigns, period, generatedBy, today);
    r := Success(AuditPackage(packageId, generatedAt, generatedBy, auditPeriodStart, auditPeriodEnd, Some(summary), evidence,
                              MapSeq(fs, FrameworkValue), summary.controlsTotal, summary.controlsSatisfied));
  }

  /** The package's control counts come from the campaigns' own
      `control_mappings` entries, not from the evidence it generates: without
      such entries it covers no controls, although each campaign's evidence
      maps the default five. */
  lemma {:induction false} ControlsCoveredFromInput(campaigns: seq<CampaignData>, n: nat)
    requires n <= |campaigns|
    requires forall i :: 0 <= i < n ==> campaigns[i].controlMappings.None?
    ensures ControlsTotal(campaigns, n) == 0 && ControlsSatisfied(campaigns, n) == 0
  {
    if n > 0 {
      ControlsCoveredFromInput(campaigns, n - 1);
    }
  }
}
