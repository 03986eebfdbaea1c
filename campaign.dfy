/** Access certification campaigns: the campaign record with its progress
    counters, and the manager that creates campaigns, loads their access
    items, assigns reviewers, moves them through their lifecycle and records
    reviewers' decisions. */
module Campaigns {
  import opened Base
  import opened Text
  import opened Dates

  datatype CampaignStatus = Draft | Scheduled | Active | Review | Completed | Cancelled

  function StatusValue(s: CampaignStatus): string {
    match s
    case Draft => "draft"
    case Scheduled => "scheduled"
    case Active => "active"
    case Review => "review"
    case Completed => "completed"
    case Cancelled => "cancelled"
  }

  datatype CampaignType =
    | QuarterlyReview | ManagerCertification | ApplicationAccess | PrivilegedAccess
    | SodReview | NewHire30Day | RoleAttestation | ComplianceAudit

  datatype ReviewDecision = Approve | Revoke | Modify | Delegate | Pending

  datatype RiskLevel = Low | Medium | High | Critical

  datatype AccessItem = AccessItem(
    id: string,
    userId: string,
    userEmail: string,
    userName: string,
    department: string,
    accessType: string,
    accessId: string,
    accessName: string,
    riskLevel: RiskLevel,
    isPrivileged: bool,
    sodConflicts: seq<string>,
    decision: ReviewDecision,
    decisionBy: Option<string>,
    decisionDate: Option<string>,
    decisionComment: Option<string>)

  datatype Reviewer = Reviewer(
    id: string,
    email: string,
    name: string,
    role: string,
    itemsAssigned: int,
    itemsCompleted: int,
    itemsPending: int)

  /** A campaign. Timestamps are the strings the caller supplies as `now`. */
  datatype Campaign = Campaign(
    id: string,
    name: string,
    description: Option<string>,
    campaignType: CampaignType,
    status: CampaignStatus,
    createdAt: string,
    createdBy: string,
    scheduledStart: Option<Date>,
    scheduledEnd: Option<Date>,
    actualStart: Option<string>,
    actualEnd: Option<string>,
    targetDepartments: seq<string>,
    targetApplications: seq<string>,
    totalItems: int,
    certifiedItems: int,
    revokedItems: int,
    pendingItems: int,
    complianceFrameworks: seq<string>)

  datatype CampaignSummary = CampaignSummary(
    campaignId: string,
    campaignName: string,
    campaignType: CampaignType,
    status: CampaignStatus,
    totalItems: int,
    certifiedCount: int,
    revokedCount: int,
    pendingCount: int,
    completionPercentage: real,
    totalReviewers: nat,
    reviewersCompleted: nat,
    criticalItems: nat,
    highRiskItems: nat,
    sodConflictsFound: nat,
    daysRemaining: Option<int>,
    isOverdue: bool)

  /** The `ValueError`s (and the `KeyError` of an unknown quarter) the manager raises. */
  datatype CampaignError =
    | CampaignNotFound(campaignId: string)
    | CannotStart(status: CampaignStatus)
    | ItemNotFound(itemId: string)
    | UnknownQuarter(quarter: string)
    | YearOutOfRange(year: int)

  function ErrorMessage(e: CampaignError): string {
    match e
    case CampaignNotFound(id) => "Campaign " + id + " not found"
    case CannotStart(status) => "Campaign cannot be started from " + StatusValue(status) + " status"
    case ItemNotFound(id) => "Access item " + id + " not found"
    case UnknownQuarter(q) => q
    case YearOutOfRange(year) => "year " + IntToString(year) + " is out of range"
  }

  // ---------------------------------------------------------------------
  // Campaign properties
  // ---------------------------------------------------------------------

  /** `completion_percentage`, before rounding: decided items over all items. */
  function CompletionPercentage(c: Campaign): real {
    if c.totalItems == 0 then 0.0
    else (c.certifiedItems + c.revokedItems) as real / c.totalItems as real * 100.0
  }

  /** With counters that do not exceed the total, the percentage lies in
      [0, 100], is 100 exactly when every item is decided, and reaches 95
      exactly when 100 times the decided items reach 95 times the total. */
  lemma CompletionBounds(c: Campaign)
    requires 0 <= c.certifiedItems && 0 <= c.revokedItems && c.certifiedItems + c.revokedItems <= c.totalItems
    ensures 0.0 <= CompletionPercentage(c) <= 100.0
    ensures c.totalItems > 0 ==> (CompletionPercentage(c) == 100.0 <==> c.certifiedItems + c.revokedItems == c.totalItems)
    ensures c.totalItems > 0 ==>
              (CompletionPercentage(c) >= 95.0 <==> 100 * (c.certifiedItems + c.revokedItems) >= 95 * c.totalItems)
  {
    if c.totalItems > 0 {
      var n := c.certifiedItems + c.revokedItems;
      var decided := n as real;
      var total := c.totalItems as real;
      var p := CompletionPercentage(c);
      assert p == decided / total * 100.0;
      assert decided / total * total == decided;
      assert p * total == decided * 100.0;
      PercentageFacts(p, decided, total);
      assert (100 * n >= 95 * c.totalItems) == (100.0 * decided >= 95.0 * total);
    }
  }

  /** `is_overdue`, with today's date supplied. */
  predicate IsOverdue(c: Campaign, today: Date) {
    c.scheduledEnd.Some? && c.status == Active && Before(c.scheduledEnd.value, today)
  }

  /** `days_remaining` of the summary: set only for an active campaign with
      an end date. */
  function DaysRemaining(c: Campaign, today: Date): Option<int> {
    if c.scheduledEnd.Some? && c.status == Active then Some(DaysBetween(today, c.scheduledEnd.value)) else None
  }

  /** On valid dates a campaign is overdue exactly when it has a negative
      number of days remaining. */
  lemma OverdueMeansPastEnd(c: Campaign, today: Date)
    requires Valid(today) && (c.scheduledEnd.Some? ==> Valid(c.scheduledEnd.value))
    ensures IsOverdue(c, today) <==> DaysRemaining(c, today).Some? && DaysRemaining(c, today).value < 0
  {
    if c.scheduledEnd.Some? {
      OrdinalOrder(c.scheduledEnd.value, today);
    }
  }

  function DefaultFrameworks(): seq<string> {
    ["SOC2", "ISO27001"]
  }

  /** The campaign `create_campaign` builds. */
  function NewCampaign(id: string, name: string, campaignType: CampaignType, createdBy: string,
                       scheduledStart: Date, scheduledEnd: Date, description: Option<string>,
                       targetDepartments: Option<seq<string>>, targetApplications: Option<seq<string>>,
                       complianceFrameworks: Option<seq<string>>, now: string): Campaign
  {
    Campaign(id, name, description, campaignType, Draft, now, createdBy, Some(scheduledStart), Some(scheduledEnd),
             None, None, OrDefault(targetDepartments, []), OrDefault(targetApplications, []), 0, 0, 0, 0,
             OrDefault(complianceFrameworks, DefaultFrameworks()))
  }

  /** The item after a decision is recorded on it. */
  function Decided(item: AccessItem, decision: ReviewDecision, reviewerId: string, comment: Option<string>,
                   now: string): AccessItem
  {
    item.(decision := decision, decisionBy := Some(reviewerId), decisionDate := Some(now), decisionComment := comment)
  }

  /** The campaign counters after one decision: one fewer pending item, and
      one more certified or revoked item for an approval or a revocation. */
  function Counted(c: Campaign, decision: ReviewDecision): (r: Campaign)
    ensures r.pendingItems == c.pendingItems - 1 && r.totalItems == c.totalItems
    ensures r.certifiedItems == c.certifiedItems + (if decision == Approve then 1 else 0)
    ensures r.revokedItems == c.revokedItems + (if decision == Revoke then 1 else 0)
    ensures r.(pendingItems := c.pendingItems, certifiedItems := c.certifiedItems, revokedItems := c.revokedItems) == c
  {
    var c1 := c.(pendingItems := c.pendingItems - 1);
    if decision == Approve then c1.(certifiedItems := c1.certifiedItems + 1)
    else if decision == Revoke then c1.(revokedItems := c1.revokedItems + 1)
    else c1
  }

  /** Replacing one item of a campaign and recounting its decisions keeps
      every campaign's id and item total in step with its items. */
  lemma DecisionKeepsTotals(campaigns: map<string, Campaign>, accessItems: map<string, seq<AccessItem>>,
                            id: string, k: nat, item: AccessItem, updated: Campaign)
    requires accessItems.Keys == campaigns.Keys && id in campaigns && k < |accessItems[id]|
    requires updated.id == campaigns[id].id && updated.totalItems == campaigns[id].totalItems
    requires forall x :: x in campaigns ==> campaigns[x].id == x && campaigns[x].totalItems == |accessItems[x]|
    ensures var cs := campaigns[id := updated];
            var items := accessItems[id := accessItems[id][k := item]];
            forall x :: x in cs ==> cs[x].id == x && cs[x].totalItems == |items[x]|
  {
  }

  /** Nothing stops the same item being decided twice: two approvals of the
      only item of a campaign count two certified items and leave -1 pending,
      for a completion of 200%. */
  lemma RepeatedDecisionsOvercount(c: Campaign)
    requires c.totalItems == 1 && c.pendingItems == 1 && c.certifiedItems == 0 && c.revokedItems == 0
    ensures var twice := Counted(Counted(c, Approve), Approve);
            twice.certifiedItems == 2 && twice.pendingItems == -1 && CompletionPercentage(twice) == 200.0
  {
  }

  /** The position of the first item with the id, as `next(...)` finds it. */
  function FirstWithId(items: seq<AccessItem>, itemId: string): (k: Option<nat>)
    ensures k.Some? ==> k.value < |items| && items[k.value].id == itemId &&
                        forall j :: 0 <= j < k.value ==> items[j].id != itemId
    ensures k.None? ==> forall j :: 0 <= j < |items| ==> items[j].id != itemId
    decreases |items|
  {
    if items == [] then None
    else if items[0].id == itemId then Some(0)
    else
      match FirstWithId(items[1..], itemId)
      case None => None
      case Some(k) => Some(k + 1)
  }

  predicate IsPendingItem(i: AccessItem) {
    i.decision == Pending
  }

  /** The undecided items, in stored order, each as often as it is stored. */
  function PendingItems(items: seq<AccessItem>): (r: seq<AccessItem>)
    ensures forall i :: 0 <= i < |r| ==> r[i].decision == Pending && r[i] in items
    ensures forall i :: 0 <= i < |items| && items[i].decision == Pending ==> items[i] in r
    ensures forall x :: multiset(r)[x] == if x.decision == Pending then multiset(items)[x] else 0
    ensures r == Filter(items, IsPendingItem)
  {
    FilterMultiset(items, IsPendingItem);
    Filter(items, IsPendingItem)
  }

  predicate IsCritical(i: AccessItem) { i.riskLevel == Critical }
  predicate IsHighRisk(i: AccessItem) { i.riskLevel == High }
  predicate IsCriticalOrHigh(i: AccessItem) { i.riskLevel == Critical || i.riskLevel == High }
  predicate HasSodConflict(i: AccessItem) { |i.sodConflicts| > 0 }
  predicate HasFinished(r: Reviewer) { r.itemsCompleted == r.itemsAssigned }

  /** The summary's critical and high-risk counts never exceed the item count
      between them. */
  lemma RiskCountsBounded(items: seq<AccessItem>)
    ensures Count(items, IsCritical) + Count(items, IsHighRisk) == Count(items, IsCriticalOrHigh) <= |items|
  {
    CountDisjoint(items, IsCritical, IsHighRisk, IsCriticalOrHigh);
  }

  // ---------------------------------------------------------------------
  // The manager
  // ---------------------------------------------------------------------

  class CampaignManager {
    var campaigns: map<string, Campaign>
    var accessItems: map<string, seq<AccessItem>>
    var reviewers: map<string, seq<Reviewer>>

    /** The three tables share their keys, every campaign is stored under its
        own id, and its total is the number of its items. */
    ghost predicate Valid()
      reads this
    {
      accessItems.Keys == campaigns.Keys && reviewers.Keys == campaigns.Keys &&
      forall id :: id in campaigns ==> campaigns[id].id == id && campaigns[id].totalItems == |accessItems[id]|
    }

    constructor()
      ensures Valid()
      ensures campaigns == map[] && accessItems == map[] && reviewers == map[]
    {
      campaigns := map[];
      accessItems := map[];
      reviewers := map[];
    }

    /** `create_campaign`, with the new id supplied: a DRAFT campaign with no
        items, no reviewers, no progress and frameworks defaulting to SOC2 and
        ISO27001. */
    method CreateCampaign(id: string, name: string, campaignType: CampaignType, createdBy: string,
                          scheduledStart: Date, scheduledEnd: Date, description: Option<string>,
                          targetDepartments: Option<seq<string>>, targetApplications: Option<seq<string>>,
                          complianceFrameworks: Option<seq<string>>, now: string)
      returns (c: Campaign)
      requires Valid()
      modifies this
      ensures Valid()
      ensures c.id == id && c.status == Draft && c.scheduledStart == Some(scheduledStart) && c.scheduledEnd == Some(scheduledEnd)
      ensures c.totalItems == 0 && c.certifiedItems == 0 && c.revokedItems == 0 && c.pendingItems == 0
      ensures c.complianceFrameworks == OrDefault(complianceFrameworks, DefaultFrameworks())
      ensures c == NewCampaign(id, name, campaignType, createdBy, scheduledStart, scheduledEnd, description,
                               targetDepartments, targetApplications, complianceFrameworks, now)
      ensures campaigns == old(campaigns)[id := c]
      ensures accessItems == old(accessItems)[id := []] && reviewers == old(reviewers)[id := []]
    {
      c := NewCampaign(id, name, campaignType, createdBy, scheduledStart, scheduledEnd, description,
                       targetDepartments, targetApplications, complianceFrameworks, now);
      campaigns := campaigns[id := c];
      accessItems := accessItems[id := []];
      reviewers := reviewers[id := []];
    }

    /** `add_access_items`: extends the campaign's items; the total becomes the
        new item count and the pending count is reset to it. */
    method AddAccessItems(campaignId: string, items: seq<AccessItem>) returns (r: Result<int, CampaignError>)
      requires Valid()
      modifies this
      ensures Valid()
      ensures campaignId !in old(campaigns) ==>
                r == Failure(CampaignNotFound(campaignId)) && unchanged(this)
      ensures campaignId in old(campaigns) ==>
                var all := old(accessItems)[campaignId] + items;
                r == Success(|items|) &&
                accessItems == old(accessItems)[campaignId := all] &&
                campaigns == old(campaigns)[campaignId := old(campaigns)[campaignId].(totalItems := |all|, pendingItems := |all|)] &&
                reviewers == old(reviewers)
    {
      if campaignId !in campaigns {
        return Failure(CampaignNotFound(campaignId));
      }
      accessItems := accessItems[campaignId := accessItems[campaignId] + items];
      var campaign := campaigns[campaignId];
      campaign := campaign.(totalItems := |accessItems[campaignId]|);
      campaign := campaign.(pendingItems := campaign.totalItems);
      campaigns := campaigns[campaignId := campaign];
      return Success(|items|);
    }

    /** `assign_reviewer`: a new reviewer record is appended with as many assigned and
        pending items as the given ids, or as the campaign's items when no ids
        are given. */
    method AssignReviewer(campaignId: string, reviewer: Reviewer, itemIds: Option<seq<string>>)
      returns (r: Result<int, CampaignError>)
      requires Valid()
      modifies this
      ensures Valid()
      ensures campaignId !in old(campaigns) ==>
                r == Failure(CampaignNotFound(campaignId)) && unchanged(this)
      ensures campaignId in old(campaigns) ==>
                var n := if itemIds.None? then |old(accessItems)[campaignId]| else |itemIds.value|;
                r == Success(n) &&
                reviewers == old(reviewers)[campaignId := old(reviewers)[campaignId] +
                                              [reviewer.(itemsAssigned := n, itemsPending := n)]] &&
                campaigns == old(campaigns) && accessItems == old(accessItems)
    {
      if campaignId !in campaigns {
        return Failure(CampaignNotFound(campaignId));
      }
      var appointed := reviewer;
      if itemIds.None? {
        var items := if campaignId in accessItems then accessItems[campaignId] else [];
        appointed := appointed.(itemsAssigned := |items|, itemsPending := |items|);
      } else {
        appointed := appointed.(itemsAssigned := |itemIds.value|, itemsPending := |itemIds.value|);
      }
      reviewers := reviewers[campaignId := reviewers[campaignId] + [appointed]];
      return Success(appointed.itemsAssigned);
    }

    /** `start_campaign`: DRAFT and SCHEDULED campaigns become ACTIVE; any
        other status is refused and nothing changes. */
    method StartCampaign(campaignId: string, now: string) returns (r: Result<Campaign, CampaignError>)
      requires Valid()
      modifies this`campaigns
      ensures Valid()
      ensures campaignId !in old(campaigns) ==> r == Failure(CampaignNotFound(campaignId)) && campaigns == old(campaigns)
      ensures campaignId in old(campaigns) && old(campaigns)[campaignId].status !in {Draft, Scheduled} ==>
                r == Failure(CannotStart(old(campaigns)[campaignId].status)) && campaigns == old(campaigns)
      ensures campaignId in old(campaigns) && old(campaigns)[campaignId].status in {Draft, Scheduled} ==>
                var started := old(campaigns)[campaignId].(status := Active, actualStart := Some(now));
                r == Success(started) && campaigns == old(campaigns)[campaignId := started]
    {
      if campaignId !in campaigns {
        return Failure(CampaignNotFound(campaignId));
      }
      var campaign := campaigns[campaignId];
      if campaign.status != Draft && campaign.status != Scheduled {
        return Failure(CannotStart(campaign.status));
      }
      campaign := campaign.(status := Active, actualStart := Some(now));
      campaigns := campaigns[campaignId := campaign];
      return Success(campaign);
    }

    /** The first item of a campaign with the id, found by a scan. */
    method FindItem(items: seq<AccessItem>, itemId: string) returns (k: Option<nat>)
      ensures k == FirstWithId(items, itemId)
    {
      var i := 0;
      while i < |items|
        invariant 0 <= i <= |items|
        invariant forall j :: 0 <= j < i ==> items[j].id != itemId
      {
        if items[i].id == itemId {
          return Some(i);
        }
        i := i + 1;
      }
      return None;
    }

    /** `record_decision`: the first item with the id takes the decision, and
        the campaign's counters move by one; the item's previous decision is
        not consulted. */
    method RecordDecision(campaignId: string, itemId: string, decision: ReviewDecision, reviewerId: string,
                          comment: Option<string>, now: string)
      returns (r: Result<AccessItem, CampaignError>)
      requires Valid()
      modifies this`campaigns, this`accessItems
      ensures Valid()
      ensures campaignId !in old(campaigns) ==>
                r == Failure(CampaignNotFound(campaignId)) && campaigns == old(campaigns) && accessItems == old(accessItems)
      ensures campaignId in old(campaigns) && FirstWithId(old(accessItems)[campaignId], itemId).None? ==>
                r == Failure(ItemNotFound(itemId)) && campaigns == old(campaigns) && accessItems == old(accessItems)
      ensures campaignId in old(campaigns) && FirstWithId(old(accessItems)[campaignId], itemId).Some? ==>
                var items := old(accessItems)[campaignId];
                var k := FirstWithId(items, itemId).value;
                var item := Decided(items[k], decision, reviewerId, comment, now);
                r == Success(item) &&
                accessItems == old(accessItems)[campaignId := items[k := item]] &&
                campaigns == old(campaigns)[campaignId := Counted(old(campaigns)[campaignId], decision)]
    {
      if campaignId !in campaigns {
        return Failure(CampaignNotFound(campaignId));
      }
      var items := if campaignId in accessItems then accessItems[campaignId] else [];
      var k := FindItem(items, itemId);
      if k.None? {
        return Failure(ItemNotFound(itemId));
      }
      var item := Decided(items[k.value], decision, reviewerId, comment, now);
      var campaign := campaigns[campaignId];
      campaign := campaign.(pendingItems := campaign.pendingItems - 1);
      if decision == Approve {
        campaign := campaign.(certifiedItems := campaign.certifiedItems + 1);
      } else if decision == Revoke {
        campaign := campaign.(revokedItems := campaign.revokedItems + 1);
      }
      assert campaign == Counted(campaigns[campaignId], decision);
      DecisionKeepsTotals(campaigns, accessItems, campaignId, k.value, item, campaign);
      accessItems := accessItems[campaignId := items[k.value := item]];
      campaigns := campaigns[campaignId := campaign];
      return Success(item);
    }

    /** `get_campaign_summary`. */
    function GetCampaignSummary(campaignId: string, today: Date): (r: Result<CampaignSummary, CampaignError>)
      reads this
      ensures r.Failure? <==> campaignId !in campaigns
      ensures r.Success? ==>
                var c := campaigns[campaignId];
                var s := r.value;
                s.campaignId == c.id && s.status == c.status && s.totalItems == c.totalItems &&
                s.certifiedCount == c.certifiedItems && s.revokedCount == c.revokedItems &&
                s.pendingCount == c.pendingItems && s.completionPercentage == CompletionPercentage(c) &&
                s.isOverdue == IsOverdue(c, today) && s.daysRemaining == DaysRemaining(c, today)
      ensures r.Success? ==>
                var items := if campaignId in accessItems then accessItems[campaignId] else [];
                r.value.criticalItems + r.value.highRiskItems <= |items| && r.value.sodConflictsFound <= |items|
      ensures r.Success? ==>
                var c := campaigns[campaignId];
                var items := if campaignId in accessItems then accessItems[campaignId] else [];
                var team := if campaignId in reviewers then reviewers[campaignId] else [];
                var s := r.value;
                && s.campaignName == c.name && s.campaignType == c.campaignType
                && s.totalReviewers == |team| && s.reviewersCompleted == Count(team, HasFinished)
                && s.reviewersCompleted <= s.totalReviewers
                && s.criticalItems == Count(items, IsCritical) && s.highRiskItems == Count(items, IsHighRisk)
                && s.sodConflictsFound == Count(items, HasSodConflict)
    {
      if campaignId !in campaigns then Failure(CampaignNotFound(campaignId))
      else
        var c := campaigns[campaignId];
        var items := if campaignId in accessItems then accessItems[campaignId] else [];
        var team := if campaignId in reviewers then reviewers[campaignId] else [];
        RiskCountsBounded(items);
        Success(CampaignSummary(c.id, c.name, c.campaignType, c.status, c.totalItems, c.certifiedItems, c.revokedItems,
                                c.pendingItems, CompletionPercentage(c), |team|, Count(team, HasFinished),
                                Count(items, IsCritical), Count(items, IsHighRisk), Count(items, HasSodConflict),
                                DaysRemaining(c, today), IsOverdue(c, today)))
    }

    /** `complete_campaign`: COMPLETED from any status. */
    method CompleteCampaign(campaignId: string, now: string) returns (r: Result<Campaign, CampaignError>)
      requires Valid()
      modifies this`campaigns
      ensures Valid()
      ensures campaignId !in old(campaigns) ==> r == Failure(CampaignNotFound(campaignId)) && campaigns == old(campaigns)
      ensures campaignId in old(campaigns) ==>
                var done := old(campaigns)[campaignId].(status := Completed, actualEnd := Some(now));
                r == Success(done) && campaigns == old(campaigns)[campaignId := done]
    {
      if campaignId !in campaigns {
        return Failure(CampaignNotFound(campaignId));
      }
      var campaign := campaigns[campaignId].(status := Completed, actualEnd := Some(now));
      campaigns := campaigns[campaignId := campaign];
      return Success(campaign);
    }

    /** `get_pending_reviews`: the campaign's undecided items in stored order;
        the given reviewer id plays no part, and an unknown campaign has none. */
    function GetPendingReviews(campaignId: string, reviewerId: string): (r: seq<AccessItem>)
      reads this
      ensures campaignId !in accessItems ==> r == []
      ensures campaignId in accessItems ==>
                (forall i :: 0 <= i < |r| ==> r[i].decision == Pending && r[i] in accessItems[campaignId]) &&
                (forall i :: 0 <= i < |accessItems[campaignId]| && accessItems[campaignId][i].decision == Pending ==>
                   accessItems[campaignId][i] in r)
      ensures campaignId in accessItems ==>
                && r == Filter(accessItems[campaignId], IsPendingItem)
                && forall x :: multiset(r)[x] == if x.decision == Pending then multiset(accessItems[campaignId])[x] else 0
    {
      PendingItems(if campaignId in accessItems then accessItems[campaignId] else [])
    }

    /** `get_overdue_items`: the pending reviews of an overdue campaign, and
        none otherwise. */
    function GetOverdueItems(campaignId: string, today: Date): (r: Result<seq<AccessItem>, CampaignError>)
      reads this
      ensures campaignId !in campaigns ==> r == Failure(CampaignNotFound(campaignId))
      ensures campaignId in campaigns && !IsOverdue(campaigns[campaignId], today) ==> r == Success([])
      ensures campaignId in campaigns && IsOverdue(campaigns[campaignId], today) ==>
                forall reviewerId :: r == Success(GetPendingReviews(campaignId, reviewerId))
    {
      if campaignId !in campaigns then Failure(CampaignNotFound(campaignId))
      else if !IsOverdue(campaigns[campaignId], today) then Success([])
      else Success(PendingItems(if campaignId in accessItems then accessItems[campaignId] else []))
    }
  }

  // ---------------------------------------------------------------------
  // Quarterly campaigns
  // ---------------------------------------------------------------------

  /** The month a quarter's campaign runs in. */
  function QuarterMonth(quarter: string): Option<int> {
    if quarter == "Q1" then Some(1)
    else if quarter == "Q2" then Some(4)
    else if quarter == "Q3" then Some(7)
    else if quarter == "Q4" then Some(10)
    else None
  }

  function QuarterStart(quarter: string, year: int): Option<Date> {
    match QuarterMonth(quarter)
    case None => None
    case Some(m) => Some(Date(year, m, 1))
  }

  function QuarterEnd(quarter: string, year: int): Option<Date> {
    match QuarterMonth(quarter)
    case None => None
    case Some(m) => Some(Date(year, m, if m == 4 then 30 else 31))
  }

  /** A quarterly campaign runs from the first to the last day of the first
      month of its quarter, so it starts before it ends. */
  lemma QuarterWindow(quarter: string, year: int)
    requires quarter in {"Q1", "Q2", "Q3", "Q4"} && MinYear <= year <= MaxYear
    ensures var start := QuarterStart(quarter, year).value;
            var end := QuarterEnd(quarter, year).value;
            Valid(start) && Valid(end) && start.month == end.month == 3 * (quarter[1] as int - '0' as int) - 2 &&
            start.day == 1 && end.day == DaysInMonth(year, end.month) && Before(start, end) &&
            DaysBetween(start, end) == end.day - 1
  {
  }

  /** The description every quarterly campaign carries. */
  function QuarterlyDescription(quarter: string, year: int): string {
    "Quarterly access certification for " + quarter + " " + IntToString(year) +
    ". All managers must certify their direct reports' access."
  }

  /** `create_quarterly_campaign`: a quarterly review named after the quarter
      and year, covering SOC2, ISO27001 and NIST. A year `date` refuses, or a
      quarter other than Q1 to Q4, raises before anything is created. */
  method CreateQuarterlyCampaign(manager: CampaignManager, quarter: string, year: int, createdBy: string,
                                 departments: Option<seq<string>>, id: string, now: string)
    returns (r: Result<Campaign, CampaignError>)
    requires manager.Valid()
    modifies manager
    ensures manager.Valid()
    ensures !(MinYear <= year <= MaxYear) ==> r == Failure(YearOutOfRange(year)) && unchanged(manager)
    ensures MinYear <= year <= MaxYear && QuarterMonth(quarter).None? ==>
              r == Failure(UnknownQuarter(quarter)) && unchanged(manager)
    ensures MinYear <= year <= MaxYear && QuarterMonth(quarter).Some? ==>
              r.Success? && r.value.campaignType == QuarterlyReview &&
              r.value.name == quarter + " " + IntToString(year) + " Access Certification" &&
              r.value.scheduledStart == QuarterStart(quarter, year) && r.value.scheduledEnd == QuarterEnd(quarter, year) &&
              r.value.complianceFrameworks == ["SOC2", "ISO27001", "NIST"] &&
              r.value.targetDepartments == OrDefault(departments, []) &&
              r.value.status == Draft && r.value.id == id && r.value.createdBy == createdBy &&
              r.value.totalItems == 0 && r.value.certifiedItems == 0 && r.value.revokedItems == 0 &&
              r.value.pendingItems == 0 &&
              r.value.description == Some(QuarterlyDescription(quarter, year)) &&
              r.value == NewCampaign(id, quarter + " " + IntToString(year) + " Access Certification",
                                     QuarterlyReview, createdBy, QuarterStart(quarter, year).value,
                                     QuarterEnd(quarter, year).value, Some(QuarterlyDescription(quarter, year)),
                                     Some(OrDefault(departments, [])), None, Some(["SOC2", "ISO27001", "NIST"]), now) &&
              manager.campaigns == old(manager.campaigns)[id := r.value] &&
              manager.accessItems == old(manager.accessItems)[id := []] &&
              manager.reviewers == old(manager.reviewers)[id := []]
  {
    if !(MinYear <= year <= MaxYear) {
      return Failure(YearOutOfRange(year));
    }
    var start := QuarterStart(quarter, year);
    var end := QuarterEnd(quarter, year);
    if start.None? || end.None? {
      return Failure(UnknownQuarter(quarter));
    }
    var period := quarter + " " + IntToString(year);
    var c := manager.CreateCampaign(
      id, period + " Access Certification", QuarterlyReview, createdBy, start.value, end.value,
      Some(QuarterlyDescription(quarter, year)),
      Some(OrDefault(departments, [])), None, Some(["SOC2", "ISO27001", "NIST"]), now);
    return Success(c);
  }
}
