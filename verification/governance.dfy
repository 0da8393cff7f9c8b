/**
 * The governance layer: a fixed permission table, the permission and
 * auto-approval decision, the list of approval requests with its status
 * updates, and the ordered escalation rules applied to agent outputs.
 */
module Governance {
  import opened Common
  import opened Text

  datatype PermissionLevel = Read | Recommend | Act | Approve

  datatype ApprovalStatus = Pending | Approved | Rejected | Escalated | AutoApproved {
    /** The status's wire value. */
    function Value(): string {
      match this
      case Pending => "pending"
      case Approved => "approved"
      case Rejected => "rejected"
      case Escalated => "escalated"
      case AutoApproved => "auto_approved"
    }
  }

  /** A spending limit: a number, or `float('inf')` for the orchestrator. */
  datatype Limit = Finite(amount: real) | Unlimited

  /** `amount > limit`, where nothing exceeds an infinite limit. */
  predicate Exceeds(amount: real, limit: Limit) {
    limit.Finite? && amount > limit.amount
  }

  datatype AgentPermissions = AgentPermissions(
    level: PermissionLevel,
    canApprove: seq<string>,
    spendingLimit: Limit,
    hiringLimit: Option<int>)

  /** The permission table the governance layer starts with; it never changes. */
  function PermissionsOf(agent: string): Option<AgentPermissions> {
    if agent == "ceo_orchestrator" then
      Some(AgentPermissions(Approve, ["budget", "hiring", "policy_change", "strategy"], Unlimited, None))
    else if agent == "sales_agent" then
      Some(AgentPermissions(Act, ["discount_under_10_percent"], Finite(25000.0), Some(2)))
    else if agent == "marketing_agent" then
      Some(AgentPermissions(Act, ["campaign_under_budget"], Finite(100000.0), Some(1)))
    else if agent == "finance_agent" then
      Some(AgentPermissions(Recommend, ["budget_reallocation_under_50k"], Finite(0.0), Some(0)))
    else if agent == "operations_agent" then
      Some(AgentPermissions(Act, ["vendor_under_25k"], Finite(25000.0), Some(5)))
    else if agent == "support_agent" then
      Some(AgentPermissions(Recommend, ["refund_under_500"], Finite(500.0), Some(0)))
    else if agent == "hr_agent" then
      Some(AgentPermissions(Act, ["job_posting", "interview_process"], Finite(0.0), Some(0)))
    else None
  }

  /** An unknown agent has spending limit 0 and may approve nothing. */
  function SpendingLimit(agent: string): Limit {
    match PermissionsOf(agent)
    case None => Finite(0.0)
    case Some(p) => p.spendingLimit
  }

  function CanApprove(agent: string): seq<string> {
    match PermissionsOf(agent)
    case None => []
    case Some(p) => p.canApprove
  }

  /** The auto-approval thresholds by request type; any other type has threshold 0. */
  function AutoApprovalLimit(kind: string): real {
    if kind == "budget" then 50000.0
    else if kind == "hiring" then 3.0
    else if kind == "vendor_contract" then 25000.0
    else 0.0
  }

  /** The permission an action needs; an unmapped action needs a permission of its own name. */
  function RequiredPermission(action: string): string {
    if action == "budget_request" then "budget"
    else if action == "hiring_request" then "hiring"
    else if action == "vendor_contract" then "vendor_contract"
    else if action == "campaign_launch" then "campaign_under_budget"
    else if action == "discount" then "discount_under_10_percent"
    else if action == "refund" then "refund_under_500"
    else action
  }

  /** Python truthiness of an optional amount: present and non-zero. */
  predicate Truthy(amount: Option<real>) {
    amount.Some? && amount.value != 0.0
  }

  /** Auto-approval applies to a truthy amount at or below the threshold. */
  predicate WithinAutoLimit(kind: string, amount: Option<real>) {
    Truthy(amount) && amount.value <= AutoApprovalLimit(kind)
  }

  datatype PermissionReason =
    | OverSpendingLimit(amount: real)
    | UnderAutoThreshold(threshold: real)
    | HasAuthority
    | LacksPermission(permission: string)

  datatype PermissionDecision = PermissionDecision(
    allowed: bool,
    requiresApproval: bool,
    approver: Option<string>,
    autoApproved: bool,
    reason: PermissionReason)

  predicate OverLimit(agent: string, amount: Option<real>) {
    Truthy(amount) && Exceeds(amount.value, SpendingLimit(agent))
  }

  /**
   * `check_permission`: an amount over the agent's spending limit needs the
   * orchestrator's approval; otherwise an agent holding the required
   * permission acts on its own (auto-approved when within the threshold);
   * otherwise it needs the orchestrator's approval.
   */
  function CheckPermission(agent: string, action: string, amount: Option<real>): (d: PermissionDecision)
    ensures d.allowed <==> !OverLimit(agent, amount) && RequiredPermission(action) in CanApprove(agent)
    ensures d.requiresApproval <==> !d.allowed
    ensures d.approver == (if d.allowed then None else Some("ceo_orchestrator"))
    ensures d.autoApproved <==> d.allowed && WithinAutoLimit(RequiredPermission(action), amount)
  {
    if OverLimit(agent, amount) then
      PermissionDecision(false, true, Some("ceo_orchestrator"), false, OverSpendingLimit(amount.value))
    else
      var required := RequiredPermission(action);
      if required in CanApprove(agent) then
        var threshold := AutoApprovalLimit(required);
        if WithinAutoLimit(required, amount) then
          PermissionDecision(true, false, None, true, UnderAutoThreshold(threshold))
        else
          PermissionDecision(true, false, None, false, HasAuthority)
      else
        PermissionDecision(false, true, Some("ceo_orchestrator"), false, LacksPermission(required))
  }

  /**
   * For a non-negative amount only the orchestrator is ever auto-approved,
   * and only for budget or hiring: no other agent may approve a permission
   * that has a positive auto-approval threshold.
   */
  lemma AutoApprovedOnlyForOrchestrator(agent: string, action: string, amount: Option<real>)
    requires amount.Some? ==> amount.value >= 0.0
    requires CheckPermission(agent, action, amount).autoApproved
    ensures agent == "ceo_orchestrator"
    ensures RequiredPermission(action) == "budget" || RequiredPermission(action) == "hiring"
  {
    var required := RequiredPermission(action);
    assert required in CanApprove(agent);
    assert AutoApprovalLimit(required) > 0.0;
    assert required == "budget" || required == "hiring" || required == "vendor_contract";
  }

  /**
   * A negative amount is truthy and within every threshold, so an agent
   * acting on a permission it holds is flagged auto-approved even where the
   * threshold is 0.
   */
  lemma NegativeAmountFlaggedAutoApproved(amount: real)
    requires amount < 0.0
    ensures CheckPermission("sales_agent", "discount", Some(amount)).autoApproved
  {
  }

  /** An agent missing from the table is never allowed to act on its own. */
  lemma UnknownAgentNeverAllowed(agent: string, action: string, amount: Option<real>)
    requires PermissionsOf(agent).None?
    ensures !CheckPermission(agent, action, amount).allowed
    ensures CheckPermission(agent, action, amount).approver == Some("ceo_orchestrator")
  {
  }

  /** The orchestrator's limit is infinite, so no amount is over it. */
  lemma OrchestratorNeverOverLimit(amount: Option<real>)
    ensures !OverLimit("ceo_orchestrator", amount)
  {
  }

  /** A request for approval. */
  datatype ApprovalRequest = ApprovalRequest(
    requestId: string,
    requester: string,
    approver: string,
    requestType: string,
    description: string,
    amount: Option<real>,
    details: map<string, string>,
    status: ApprovalStatus,
    conditions: seq<string>)

  /** `f"REQ-{n:04d}"`. */
  function RequestIdText(n: nat): string {
    Tag("REQ-", n, 4)
  }

  /** The request `request_approval` builds as the `n`-th request. */
  function NewRequest(n: nat, requester: string, requestType: string, description: string,
                      amount: Option<real>, details: Option<map<string, string>>): (r: ApprovalRequest)
    ensures r.requestId == RequestIdText(n) && r.requester == requester
    ensures r.requestType == requestType && r.description == description && r.amount == amount
    ensures r.details == (if details.None? then map[] else details.value) && r.conditions == []
    ensures r.status == AutoApproved <==> WithinAutoLimit(requestType, amount)
    ensures r.status == Pending <==> !WithinAutoLimit(requestType, amount)
    ensures r.approver == (if WithinAutoLimit(requestType, amount) then "system" else "ceo_orchestrator")
  {
    if WithinAutoLimit(requestType, amount) then
      ApprovalRequest(RequestIdText(n), requester, "system", requestType, description, amount,
                      details.GetOr(map[]), AutoApproved, [])
    else
      ApprovalRequest(RequestIdText(n), requester, "ceo_orchestrator", requestType, description, amount,
                      details.GetOr(map[]), Pending, [])
  }

  /** An amount equal to the threshold is auto-approved. */
  lemma AutoApprovalAtThreshold()
    ensures WithinAutoLimit("budget", Some(50000.0))
    ensures WithinAutoLimit("hiring", Some(3.0))
    ensures WithinAutoLimit("vendor_contract", Some(25000.0))
  {
  }

  /** A zero or missing amount is never auto-approved, whatever the type. */
  lemma NoAutoApprovalWithoutAmount(kind: string)
    ensures !WithinAutoLimit(kind, Some(0.0)) && !WithinAutoLimit(kind, None)
  {
  }

  /** A negative amount is truthy and below every threshold, so it is auto-approved for any type. */
  lemma NegativeAmountAutoApproved(kind: string, amount: real)
    requires amount < 0.0
    ensures WithinAutoLimit(kind, Some(amount))
  {
  }

  /** The request `approve` leaves behind. */
  function ApprovedRequest(r: ApprovalRequest, approver: string, conditions: Option<seq<string>>): ApprovalRequest {
    r.(status := Approved, approver := approver, conditions := r.conditions + conditions.GetOr([]))
  }

  /** The request `reject` leaves behind. */
  function RejectedRequest(r: ApprovalRequest, approver: string, reason: string): ApprovalRequest {
    r.(status := Rejected, approver := approver, details := r.details["rejection_reason" := reason])
  }

  /** The request `escalate` leaves behind. */
  function EscalatedRequest(r: ApprovalRequest, reason: string): ApprovalRequest {
    r.(status := Escalated, approver := "ceo", details := r.details["escalation_reason" := reason])
  }

  /** The position of the first request with id `id`, or `|rs|`. */
  function FirstWithId(rs: seq<ApprovalRequest>, id: string): (k: nat)
    ensures k <= |rs|
    ensures k < |rs| ==> rs[k].requestId == id
    ensures forall j :: 0 <= j < k ==> rs[j].requestId != id
  {
    if rs == [] then 0 else if rs[0].requestId == id then 0 else 1 + FirstWithId(rs[1..], id)
  }

  /** A position holding `id` with no earlier occurrence is where `FirstWithId` points. */
  lemma FirstWithIdIs(rs: seq<ApprovalRequest>, id: string, i: nat)
    requires i <= |rs| && (i < |rs| ==> rs[i].requestId == id)
    requires forall j :: 0 <= j < i ==> rs[j].requestId != id
    ensures FirstWithId(rs, id) == i
  {
  }

  /** The requests whose status is PENDING, in request order. */
  function PendingOf(rs: seq<ApprovalRequest>): (p: seq<ApprovalRequest>)
    ensures forall r :: r in p <==> r in rs && r.status == Pending
    ensures |p| == CountStatus(rs, Pending)
  {
    if rs == [] then []
    else
      var p := PendingOf(rs[..|rs| - 1]);
      var last := rs[|rs| - 1];
      assert rs == rs[..|rs| - 1] + [last];
      if last.status == Pending then p + [last] else p
  }

  function CountStatus(rs: seq<ApprovalRequest>, s: ApprovalStatus): nat {
    if rs == [] then 0
    else CountStatus(rs[..|rs| - 1], s) + (if rs[|rs| - 1].status == s then 1 else 0)
  }

  /** Every request has exactly one of the five statuses, so the per-status counts add up. */
  lemma {:induction false} StatusCountsSum(rs: seq<ApprovalRequest>)
    ensures CountStatus(rs, Pending) + CountStatus(rs, Approved) + CountStatus(rs, Rejected)
          + CountStatus(rs, Escalated) + CountStatus(rs, AutoApproved) == |rs|
  {
    if rs != [] {
      StatusCountsSum(rs[..|rs| - 1]);
    }
  }

  datatype ApprovalSummary = ApprovalSummary(
    totalRequests: nat,
    byStatus: map<ApprovalStatus, nat>,
    pending: nat,
    autoApproved: nat)

  /** The ordered escalation rules. */
  datatype EscalationRule = LowConfidence | HighBudget | PolicyChange | HighHeadcount | CrossDepartment {
    function Reason(): string {
      match this
      case LowConfidence => "Confidence below threshold (60%)"
      case HighBudget => "Budget impact exceeds $500K"
      case PolicyChange => "Requires policy change"
      case HighHeadcount => "Headcount impact exceeds 20 FTE"
      case CrossDepartment => "Affects more than 3 departments"
    }
  }

  const EscalationRules: seq<EscalationRule> :=
    [LowConfidence, HighBudget, PolicyChange, HighHeadcount, CrossDepartment]

  /** A dictionary value as `d.get(key, default)` sees it: missing, present as None, or present. */
  datatype Field<T> = Absent | Null | Present(value: T)

  /** The fields of an agent output the escalation rules read. */
  datatype EscalationInput = EscalationInput(
    confidence: Field<real>,
    budgetImpact: Field<real>,
    requiresPolicyChange: bool,
    headcountImpact: Field<int>,
    affectedDepartments: seq<string>)

  /** Whether a rule's condition holds; a missing confidence counts as 1.0, a missing impact as 0. */
  predicate Fires(x: EscalationInput, rule: EscalationRule) {
    match rule
    case LowConfidence => (if x.confidence.Present? then x.confidence.value else 1.0) < 0.6
    case HighBudget => x.budgetImpact.Present? && x.budgetImpact.value > 500000.0
    case PolicyChange => x.requiresPolicyChange
    case HighHeadcount => x.headcountImpact.Present? && x.headcountImpact.value > 20
    case CrossDepartment => |x.affectedDepartments| > 3
  }

  /**
   * The rule chain runs without comparing a None: confidence is not None,
   * and unless the confidence rule fires the budget impact is not None, and
   * unless one of the next two rules fires the headcount impact is not None.
   */
  predicate EscalationDefined(x: EscalationInput) {
    !x.confidence.Null?
    && (Fires(x, LowConfidence)
        || (!x.budgetImpact.Null? && (Fires(x, HighBudget) || x.requiresPolicyChange || !x.headcountImpact.Null?)))
  }

  /** The first rule of `rules` that fires. */
  function FirstFiring(x: EscalationInput, rules: seq<EscalationRule>): (r: Option<EscalationRule>)
    ensures r.Some? ==> r.value in rules && Fires(x, r.value)
    ensures r.None? <==> forall rule :: rule in rules ==> !Fires(x, rule)
  {
    if rules == [] then None
    else if Fires(x, rules[0]) then Some(rules[0])
    else
      var r := FirstFiring(x, rules[1..]);
      assert forall rule :: rule in rules ==> rule == rules[0] || rule in rules[1..];
      r
  }

  /**
   * `should_escalate`: the rules in their fixed order; the first whose
   * condition holds decides, and `(false, "")` when none does.
   */
  function ShouldEscalate(x: EscalationInput): (bool, string)
    requires EscalationDefined(x)
  {
    if (if x.confidence.Present? then x.confidence.value else 1.0) < 0.6 then (true, LowConfidence.Reason())
    else if (if x.budgetImpact.Present? then x.budgetImpact.value else 0.0) > 500000.0 then (true, HighBudget.Reason())
    else if x.requiresPolicyChange then (true, PolicyChange.Reason())
    else if (if x.headcountImpact.Present? then x.headcountImpact.value else 0) > 20 then (true, HighHeadcount.Reason())
    else if |x.affectedDepartments| > 3 then (true, CrossDepartment.Reason())
    else (false, "")
  }

  /**
   * The rule chain answers with the first rule, in the fixed order, whose
   * condition holds, and escalates exactly when some rule fires.
   */
  lemma ShouldEscalateFirstRule(x: EscalationInput)
    requires EscalationDefined(x)
    ensures ShouldEscalate(x).0 <==> FirstFiring(x, EscalationRules).Some?
    ensures ShouldEscalate(x).1 == (if ShouldEscalate(x).0 then FirstFiring(x, EscalationRules).value.Reason() else "")
    ensures ShouldEscalate(x).0 <==> exists rule :: rule in EscalationRules && Fires(x, rule)
  {
    UnfoldRules(x);
  }

  /** The first firing rule, rule by rule. */
  lemma UnfoldRules(x: EscalationInput)
    ensures FirstFiring(x, EscalationRules) ==
      if Fires(x, LowConfidence) then Some(LowConfidence)
      else if Fires(x, HighBudget) then Some(HighBudget)
      else if Fires(x, PolicyChange) then Some(PolicyChange)
      else if Fires(x, HighHeadcount) then Some(HighHeadcount)
      else if Fires(x, CrossDepartment) then Some(CrossDepartment)
      else None
  {
    var r5: seq<EscalationRule> := [CrossDepartment];
    var r4 := [HighHeadcount] + r5;
    var r3 := [PolicyChange] + r4;
    var r2 := [HighBudget] + r3;
    FirstFiringCons(x, CrossDepartment, []);
    assert [CrossDepartment] + [] == r5;
    FirstFiringCons(x, HighHeadcount, r5);
    FirstFiringCons(x, PolicyChange, r4);
    FirstFiringCons(x, HighBudget, r3);
    FirstFiringCons(x, LowConfidence, r2);
    assert [LowConfidence] + r2 == EscalationRules;
  }

  /** The rules are tried in order: the head when it fires, the rest otherwise. */
  lemma FirstFiringCons(x: EscalationInput, rule: EscalationRule, rest: seq<EscalationRule>)
    ensures FirstFiring(x, [rule] + rest) == if Fires(x, rule) then Some(rule) else FirstFiring(x, rest)
  {
    assert ([rule] + rest)[0] == rule && ([rule] + rest)[1..] == rest;
  }

  /** A confidence of exactly 0.6 does not trigger the confidence rule. */
  lemma ConfidenceThresholdIsStrict(x: EscalationInput)
    requires x.confidence == Present(0.6)
    ensures !Fires(x, LowConfidence)
  {
  }

  /** The governance state: the approval requests, in creation order. */
  class Governance {
    var requests: seq<ApprovalRequest>

    /** The `i`-th request (from 0) carries id `REQ-(i+1)`. */
    ghost predicate Valid()
      reads this
    {
      forall i :: 0 <= i < |requests| ==> requests[i].requestId == RequestIdText(i + 1)
    }

    constructor ()
      ensures Valid() && requests == []
    {
      requests := [];
    }

    /** Ids are unique: the request with id `REQ-n` is the `n`-th one and no earlier one matches. */
    lemma FindById(n: nat)
      requires Valid() && 1 <= n <= |requests|
      ensures FirstWithId(requests, RequestIdText(n)) == n - 1
    {
      var k := FirstWithId(requests, RequestIdText(n));
      assert requests[n - 1].requestId == RequestIdText(n);
      if k < n - 1 {
        assert RequestIdText(k + 1) == RequestIdText(n);
        TagInjective("REQ-", k + 1, n, 4);
      }
    }

    /** `request_approval`: appends exactly one request, numbered after the existing ones. */
    method RequestApproval(requester: string, requestType: string, description: string,
                           amount: Option<real>, details: Option<map<string, string>>)
      returns (req: ApprovalRequest)
      requires Valid()
      modifies this
      ensures Valid()
      ensures req == NewRequest(|old(requests)| + 1, requester, requestType, description, amount, details)
      ensures requests == old(requests) + [req]
    {
      req := NewRequest(|requests| + 1, requester, requestType, description, amount, details);
      Push(req);
    }

    /** Files `req`, which carries the next request number, after the existing requests. */
    method Push(req: ApprovalRequest)
      requires Valid() && req.requestId == RequestIdText(|requests| + 1)
      modifies this
      ensures Valid() && requests == old(requests) + [req]
    {
      requests := requests + [req];
    }

    /**
     * `approve`: the first request with the id becomes APPROVED by `approver`
     * with the extra conditions, whatever its status was; an unknown id
     * changes nothing.
     */
    method Approve(requestId: string, approver: string, conditions: Option<seq<string>>)
      returns (r: Option<ApprovalRequest>)
      requires Valid()
      modifies this
      ensures Valid()
      ensures var k := FirstWithId(old(requests), requestId);
        if k < |old(requests)| then
          r == Some(ApprovedRequest(old(requests)[k], approver, conditions)) && requests == old(requests)[k := r.value]
        else
          r == None && requests == old(requests)
    {
      var k := Locate(requestId);
      if k < |requests| {
        r := Some(ApprovedRequest(requests[k], approver, conditions));
        Replace(k, r.value);
      } else {
        r := None;
      }
    }

    /** `reject`: like `approve`, setting REJECTED and recording the reason in the details. */
    method Reject(requestId: string, approver: string, reason: string)
      returns (r: Option<ApprovalRequest>)
      requires Valid()
      modifies this
      ensures Valid()
      ensures var k := FirstWithId(old(requests), requestId);
        if k < |old(requests)| then
          r == Some(RejectedRequest(old(requests)[k], approver, reason)) && requests == old(requests)[k := r.value]
        else
          r == None && requests == old(requests)
    {
      var k := Locate(requestId);
      if k < |requests| {
        r := Some(RejectedRequest(requests[k], approver, reason));
        Replace(k, r.value);
      } else {
        r := None;
      }
    }

    /** `escalate`: like `reject`, setting ESCALATED with approver "ceo". */
    method Escalate(requestId: string, reason: string)
      returns (r: Option<ApprovalRequest>)
      requires Valid()
      modifies this
      ensures Valid()
      ensures var k := FirstWithId(old(requests), requestId);
        if k < |old(requests)| then
          r == Some(EscalatedRequest(old(requests)[k], reason)) && requests == old(requests)[k := r.value]
        else
          r == None && requests == old(requests)
    {
      var k := Locate(requestId);
      if k < |requests| {
        r := Some(EscalatedRequest(requests[k], reason));
        Replace(k, r.value);
      } else {
        r := None;
      }
    }

    /** The scan the status updates share: the position of the first request with the id, or `|requests|`. */
    method Locate(requestId: string) returns (k: nat)
      ensures k == FirstWithId(requests, requestId)
    {
      for i := 0 to |requests|
        invariant forall j :: 0 <= j < i ==> requests[j].requestId != requestId
      {
        if requests[i].requestId == requestId {
          FirstWithIdIs(requests, requestId, i);
          return i;
        }
      }
      FirstWithIdIs(requests, requestId, |requests|);
      return |requests|;
    }

    /** Puts `updated`, which keeps the request's id, in place of the `i`-th request. */
    method Replace(i: nat, updated: ApprovalRequest)
      requires Valid() && i < |requests| && updated.requestId == requests[i].requestId
      modifies this
      ensures Valid() && requests == old(requests)[i := updated]
    {
      requests := requests[i := updated];
    }

    /** `get_pending_requests`: exactly the PENDING requests, in request order. */
    function PendingRequests(): (p: seq<ApprovalRequest>)
      reads this
      ensures forall r :: r in p <==> r in requests && r.status == Pending
    {
      PendingOf(requests)
    }

    /**
     * `get_approval_summary`: the total, a count for each status that occurs,
     * the number pending and the number auto-approved.
     */
    method ApprovalSummaryOf() returns (s: ApprovalSummary)
      ensures s.totalRequests == |requests|
      ensures forall st :: st in s.byStatus <==> CountStatus(requests, st) > 0
      ensures forall st :: st in s.byStatus ==> s.byStatus[st] == CountStatus(requests, st)
      ensures s.pending == CountStatus(requests, Pending)
      ensures s.autoApproved == CountStatus(requests, AutoApproved)
    {
      var byStatus: map<ApprovalStatus, nat> := map[];
      for i := 0 to |requests|
        invariant forall st :: st in byStatus <==> CountStatus(requests[..i], st) > 0
        invariant forall st :: st in byStatus ==> byStatus[st] == CountStatus(requests[..i], st)
      {
        var st := requests[i].status;
        assert requests[..i + 1][..i] == requests[..i];
        var c := if st in byStatus then byStatus[st] else 0;
        byStatus := byStatus[st := c + 1];
      }
      assert requests[..|requests|] == requests;
      var auto := if AutoApproved in byStatus then byStatus[AutoApproved] else 0;
      s := ApprovalSummary(|requests|, byStatus, |PendingOf(requests)|, auto);
    }
  }
}
