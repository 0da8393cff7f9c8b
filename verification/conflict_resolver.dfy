/**
 * The conflict engine: four detection passes over the agents' reports
 * (budget, timeline, strategy, resources), a strategy per conflict kind,
 * greedy priority-ordered budget allocation, and the alignment report.
 */
module ConflictResolver {
  import opened Common
  import opened Grouping
  import opened Table

  // ----- What the passes read from an agent's report -----

  datatype BudgetRequest = BudgetRequest(department: Option<string>, amount: Option<real>, purpose: Option<string>)

  datatype Deliverable = Deliverable(name: string, date: Option<string>)

  datatype Timeline = Timeline(
    dependsOn: Option<seq<string>>,
    completionDate: Option<string>,
    deliverables: Option<seq<Deliverable>>)

  datatype Strategy = Strategy(cacDirection: Option<string>, pricingStrategy: Option<string>, marginProtection: Option<bool>)

  datatype ResourceRequest = ResourceRequest(resource: Option<string>, amount: Option<real>, priority: Option<string>)

  /** The optional sections of an agent's report; `None` is a missing key. */
  datatype WorkerReport = WorkerReport(
    budgetRequest: Option<BudgetRequest>,
    timeline: Option<Timeline>,
    strategy: Option<Strategy>,
    resourceRequests: Option<seq<ResourceRequest>>)

  // ----- Conflicts -----

  datatype ConflictType =
    | BudgetOverallocation | ResourceContention | StrategicMisalignment
    | TimelineConflict | DependencyUnmet | PriorityConflict

  /** A department's budget request as the budget pass files it (it sets no priority). */
  datatype BudgetLine = BudgetLine(agent: string, amount: real, purpose: string, priority: Option<string>)

  datatype Shortfall = Shortfall(department: string, requested: real, available: real, shortfall: real,
                                 requests: seq<BudgetLine>)

  datatype Dependency = Dependency(agent: string, dependsOn: string, neededBy: Option<string>)

  datatype DeliveredItem = DeliveredItem(agent: string, deliverable: string, deliveryDate: Option<string>)

  datatype Contradiction = CacConflict | PricingConflict

  datatype ResourceLine = ResourceLine(agent: string, amount: real, priority: string)

  datatype Contention = Contention(resource: Option<string>, totalRequested: real, requests: seq<ResourceLine>)

  /** A conflict's `agent_recommendations`, one shape per detection pass. */
  datatype ConflictData =
    | BudgetConflicts(shortfalls: seq<Shortfall>)
    | UnmetDependencies(unmet: seq<Dependency>)
    | Contradictions(contradictions: seq<Contradiction>)
    | Contentions(contentions: seq<Contention>)

  datatype Allocation =
    | FullyFunded(agent: string, amount: real)
    | PartiallyFunded(agent: string, amount: real, requested: real)

  /** The outcome of a resolution strategy (`resolution_details`). */
  datatype Resolution =
    | NoConflictData
    | BudgetAllocated(allocations: seq<Allocation>, remaining: real)
    | TimePhasing
    | StrategicEscalation(options: seq<Contradiction>)
    | CriticalPathAdjustment
    | ImpactRanking
  {
    /** The `resolved` flag of the outcome. */
    predicate Resolved() {
      match this
      case NoConflictData => false
      case BudgetAllocated(_, remaining) => remaining >= 0.0
      case TimePhasing => true
      case StrategicEscalation(_) => false
      case CriticalPathAdjustment => true
      case ImpactRanking => true
    }
  }

  datatype Conflict = Conflict(
    conflictId: string,
    kind: ConflictType,
    agentsInvolved: seq<string>,
    data: ConflictData,
    severity: string,
    resolution: Option<Resolution>)

  // ----- Helpers -----

  /** Python's `s.replace(pat, "")`: removes every occurrence, scanning left to right. */
  function RemoveAll(s: string, pat: string): (r: string)
    requires pat != []
    ensures |r| <= |s|
    decreases |s|
  {
    if s == [] then []
    else if pat <= s then RemoveAll(s[|pat|..], pat)
    else [s[0]] + RemoveAll(s[1..], pat)
  }

  /** A string in which the pattern does not occur is left as it is. */
  lemma {:induction false} RemoveAllAbsent(s: string, pat: string)
    requires pat != []
    requires forall i :: 0 <= i < |s| ==> !(pat <= s[i..])
    ensures RemoveAll(s, pat) == s
    decreases |s|
  {
    if s != [] {
      assert s[0..] == s;
      forall i | 0 <= i < |s[1..]| ensures !(pat <= s[1..][i..]) {
        assert s[1..][i..] == s[i + 1..];
      }
      RemoveAllAbsent(s[1..], pat);
    }
  }

  /** The default department of an agent: its name with `_agent` removed. */
  function DepartmentOf(agentName: string): string {
    RemoveAll(agentName, "_agent")
  }

  /**
   * Removing the pattern from `prefix + pat` leaves `prefix` when no
   * occurrence of the pattern starts inside `prefix`.
   */
  lemma {:induction false} RemoveAllTrailing(prefix: string, pat: string)
    requires pat != []
    requires forall i :: 0 <= i < |prefix| ==> !(pat <= (prefix + pat)[i..])
    ensures RemoveAll(prefix + pat, pat) == prefix
    decreases |prefix|
  {
    var s := prefix + pat;
    if prefix == [] {
      assert s == pat && s[|pat|..] == [];
    } else {
      assert s[0..] == s && s[1..] == prefix[1..] + pat;
      forall i | 0 <= i < |prefix[1..]| ensures !(pat <= (prefix[1..] + pat)[i..]) {
        assert (prefix[1..] + pat)[i..] == s[i + 1..];
      }
      RemoveAllTrailing(prefix[1..], pat);
    }
  }

  /** An agent called `sales_agent` files its requests under `sales`. */
  lemma SalesAgentDepartment()
    ensures DepartmentOf("sales_agent") == "sales"
  {
    var p := "_agent";
    forall i | 0 <= i < 5 ensures !(p <= ("sales" + p)[i..]) {
      assert ("sales" + p)[i..][0] == "sales"[i] != p[0];
    }
    assert "sales" + p == "sales_agent";
    RemoveAllTrailing("sales", p);
  }

  function TotalAmount(lines: seq<BudgetLine>): real {
    if lines == [] then 0.0 else TotalAmount(lines[..|lines| - 1]) + lines[|lines| - 1].amount
  }

  function ResourceTotal(lines: seq<ResourceLine>): real {
    if lines == [] then 0.0 else ResourceTotal(lines[..|lines| - 1]) + lines[|lines| - 1].amount
  }

  // ----- Budget pass -----

  /** The budget requests in report order, each filed under its department. */
  function BudgetItems(outputs: seq<(string, WorkerReport)>): seq<(string, BudgetLine)> {
    if outputs == [] then []
    else
      var prev := BudgetItems(outputs[..|outputs| - 1]);
      var (name, w) := outputs[|outputs| - 1];
      match w.budgetRequest
      case None => prev
      case Some(req) =>
        var dept := if req.department.Some? then req.department.value else DepartmentOf(name);
        prev + [(dept, BudgetLine(name, req.amount.GetOr(0.0), req.purpose.GetOr(""), None))]
  }

  /** The budget still available to a department: its limit (0 if unknown) less half of it. */
  function Available(limits: map<string, real>, dept: string): (a: real)
    ensures a * 2.0 == (if dept in limits then limits[dept] else 0.0)
  {
    var limit := if dept in limits then limits[dept] else 0.0;
    var spent := limit * 0.5;
    limit - spent
  }

  /** The departments among `depts` whose requests exceed what is available, in order. */
  function Shortfalls(depts: seq<string>, items: seq<(string, BudgetLine)>, limits: map<string, real>): seq<Shortfall> {
    if depts == [] then []
    else
      var prev := Shortfalls(depts[..|depts| - 1], items, limits);
      var d := depts[|depts| - 1];
      var reqs := GroupOf(items, d);
      var total := TotalAmount(reqs);
      var avail := Available(limits, d);
      if total > avail then prev + [Shortfall(d, total, avail, total - avail, reqs)] else prev
  }

  /** Checking one more department of `order` adds at most its own shortfall. */
  lemma ShortfallsPrefix(order: seq<string>, i: nat, items: seq<(string, BudgetLine)>, limits: map<string, real>)
    requires i < |order|
    ensures var reqs := GroupOf(items, order[i]);
      var avail := Available(limits, order[i]);
      Shortfalls(order[..i + 1], items, limits) == Shortfalls(order[..i], items, limits)
        + (if TotalAmount(reqs) > avail then [Shortfall(order[i], TotalAmount(reqs), avail, TotalAmount(reqs) - avail, reqs)] else [])
  {
    var prefix := order[..i + 1];
    assert prefix[..i] == order[..i] && prefix[|prefix| - 1] == order[i];
  }

  /** There is no shortfall exactly when every department's requests fit what is available. */
  lemma {:induction false} ShortfallsEmpty(depts: seq<string>, items: seq<(string, BudgetLine)>, limits: map<string, real>)
    ensures Shortfalls(depts, items, limits) == []
        <==> forall d :: d in depts ==> TotalAmount(GroupOf(items, d)) <= Available(limits, d)
  {
    if depts != [] {
      var d := depts[|depts| - 1];
      assert depts == depts[..|depts| - 1] + [d];
      ShortfallsEmpty(depts[..|depts| - 1], items, limits);
    }
  }

  /** Each reported shortfall is a department of `depts` whose grouped requests exceed what is available. */
  lemma {:induction false} ShortfallsSound(depts: seq<string>, items: seq<(string, BudgetLine)>, limits: map<string, real>, s: Shortfall)
    requires s in Shortfalls(depts, items, limits)
    ensures s.department in depts && s.requests == GroupOf(items, s.department)
    ensures s.requested == TotalAmount(s.requests) && s.available == Available(limits, s.department)
    ensures s.requested > s.available && s.shortfall == s.requested - s.available
  {
    var d := depts[|depts| - 1];
    assert depts == depts[..|depts| - 1] + [d];
    if s in Shortfalls(depts[..|depts| - 1], items, limits) {
      ShortfallsSound(depts[..|depts| - 1], items, limits, s);
    }
  }

  /** What the budget pass reports. */
  function BudgetConflictOf(outputs: seq<(string, WorkerReport)>, limits: map<string, real>): (c: Option<Conflict>)
    ensures c.Some? <==> exists d :: d in KeysOf(BudgetItems(outputs))
                          && TotalAmount(GroupOf(BudgetItems(outputs), d)) > Available(limits, d)
    ensures c.Some? ==>
              c.value.conflictId == "CONF-001" && c.value.kind == BudgetOverallocation
              && c.value.severity == "high" && c.value.agentsInvolved == Keys(outputs)
              && c.value.resolution.None?
              && c.value.data == BudgetConflicts(Shortfalls(KeysOf(BudgetItems(outputs)), BudgetItems(outputs), limits))
              && c.value.data.shortfalls != []
  {
    var items := BudgetItems(outputs);
    var shortfalls := Shortfalls(KeysOf(items), items, limits);
    ShortfallsEmpty(KeysOf(items), items, limits);
    if shortfalls == [] then None
    else Some(Conflict("CONF-001", BudgetOverallocation, Keys(outputs), BudgetConflicts(shortfalls), "high", None))
  }

  /** A department with a request appears in the budget conflict exactly when its total exceeds half its limit. */
  lemma BudgetConflictShortfall(outputs: seq<(string, WorkerReport)>, limits: map<string, real>, s: Shortfall)
    requires BudgetConflictOf(outputs, limits).Some?
    requires s in BudgetConflictOf(outputs, limits).value.data.shortfalls
    ensures s.requests != [] && s.requested > s.available
    ensures s.available * 2.0 == (if s.department in limits then limits[s.department] else 0.0)
  {
    var items := BudgetItems(outputs);
    ShortfallsSound(KeysOf(items), items, limits, s);
    GroupNonEmpty(items, s.department);
  }

  /** `_detect_budget_conflict`: groups the requests by department, then checks each department. */
  method DetectBudgetConflict(outputs: seq<(string, WorkerReport)>, limits: map<string, real>)
    returns (c: Option<Conflict>)
    ensures c == BudgetConflictOf(outputs, limits)
  {
    var items := BudgetItems(outputs);
    var order, groups := GroupBy(items);
    var detected := ScanShortfalls(order, groups, items, limits);
    if detected == [] {
      c := None;
    } else {
      c := Some(Conflict("CONF-001", BudgetOverallocation, Keys(outputs), BudgetConflicts(detected), "high", None));
    }
  }

  /** The department-by-department check of the budget pass, over the grouped requests. */
  method ScanShortfalls(order: seq<string>, groups: map<string, seq<BudgetLine>>,
                        items: seq<(string, BudgetLine)>, limits: map<string, real>)
    returns (detected: seq<Shortfall>)
    requires forall d :: d in order ==> d in groups && groups[d] == GroupOf(items, d)
    ensures detected == Shortfalls(order, items, limits)
  {
    detected := [];
    for i := 0 to |order|
      invariant detected == Shortfalls(order[..i], items, limits)
    {
      var dept := order[i];
      ShortfallsPrefix(order, i, items, limits);
      var total := TotalAmount(groups[dept]);
      var limit := if dept in limits then limits[dept] else 0.0;
      var spent := limit * 0.5;
      var available := limit - spent;
      if total > available {
        detected := detected + [Shortfall(dept, total, available, total - available, groups[dept])];
      }
    }
    assert order[..|order|] == order;
  }

  // ----- Timeline pass -----

  /** The dependencies a timeline declares, each needed by its completion date. */
  function DependenciesOf(agent: string, t: Timeline): (ds: seq<Dependency>)
    ensures |ds| == (if t.dependsOn.Some? then |t.dependsOn.value| else 0)
    ensures forall i :: 0 <= i < |ds| ==> ds[i] == Dependency(agent, t.dependsOn.value[i], t.completionDate)
  {
    if t.dependsOn.None? then []
    else seq(|t.dependsOn.value|, i requires 0 <= i < |t.dependsOn.value| =>
               Dependency(agent, t.dependsOn.value[i], t.completionDate))
  }

  /** The deliverables a timeline promises. */
  function DeliverablesOf(agent: string, t: Timeline): (ds: seq<DeliveredItem>)
    ensures |ds| == (if t.deliverables.Some? then |t.deliverables.value| else 0)
    ensures forall i :: 0 <= i < |ds| ==>
              ds[i] == DeliveredItem(agent, t.deliverables.value[i].name, t.deliverables.value[i].date)
  {
    if t.deliverables.None? then []
    else seq(|t.deliverables.value|, i requires 0 <= i < |t.deliverables.value| =>
               DeliveredItem(agent, t.deliverables.value[i].name, t.deliverables.value[i].date))
  }

  /** All declared dependencies, in report order. */
  function AllDependencies(outputs: seq<(string, WorkerReport)>): seq<Dependency> {
    if outputs == [] then []
    else
      var (name, w) := outputs[|outputs| - 1];
      AllDependencies(outputs[..|outputs| - 1]) + (if w.timeline.Some? then DependenciesOf(name, w.timeline.value) else [])
  }

  /** All promised deliverables, in report order. */
  function AllDeliverables(outputs: seq<(string, WorkerReport)>): seq<DeliveredItem> {
    if outputs == [] then []
    else
      var (name, w) := outputs[|outputs| - 1];
      AllDeliverables(outputs[..|outputs| - 1]) + (if w.timeline.Some? then DeliverablesOf(name, w.timeline.value) else [])
  }

  /** Some deliverable has exactly this name. */
  predicate Delivered(name: string, delivs: seq<DeliveredItem>) {
    exists i :: 0 <= i < |delivs| && delivs[i].deliverable == name
  }

  /** The dependencies no deliverable satisfies, in order. */
  function Unmet(deps: seq<Dependency>, delivs: seq<DeliveredItem>): (u: seq<Dependency>)
    ensures forall d :: d in u <==> d in deps && !Delivered(d.dependsOn, delivs)
  {
    if deps == [] then []
    else
      var last := deps[|deps| - 1];
      assert deps == deps[..|deps| - 1] + [last];
      Unmet(deps[..|deps| - 1], delivs) + (if Delivered(last.dependsOn, delivs) then [] else [last])
  }

  function AgentsOf(unmet: seq<Dependency>): (agents: seq<string>)
    ensures |agents| == |unmet| && forall i :: 0 <= i < |unmet| ==> agents[i] == unmet[i].agent
  {
    seq(|unmet|, i requires 0 <= i < |unmet| => unmet[i].agent)
  }

  /** What the timeline pass reports. */
  function TimelineConflictOf(outputs: seq<(string, WorkerReport)>): (c: Option<Conflict>)
    ensures c.Some? <==> exists d :: d in AllDependencies(outputs) && !Delivered(d.dependsOn, AllDeliverables(outputs))
    ensures c.Some? ==>
              c.value.conflictId == "CONF-002" && c.value.kind == TimelineConflict
              && c.value.severity == "medium" && c.value.resolution.None?
              && c.value.data == UnmetDependencies(Unmet(AllDependencies(outputs), AllDeliverables(outputs)))
              && c.value.agentsInvolved == AgentsOf(c.value.data.unmet)
  {
    var unmet := Unmet(AllDependencies(outputs), AllDeliverables(outputs));
    if unmet == [] then None
    else
      assert unmet[0] in unmet;
      Some(Conflict("CONF-002", TimelineConflict, AgentsOf(unmet), UnmetDependencies(unmet), "medium", None))
  }

  /** `_detect_timeline_conflict`: collects dependencies and deliverables, then keeps the unmet dependencies. */
  method DetectTimelineConflict(outputs: seq<(string, WorkerReport)>) returns (c: Option<Conflict>)
    ensures c == TimelineConflictOf(outputs)
  {
    var dependencies, deliverables := CollectTimelines(outputs);
    var unmet := ScanUnmet(dependencies, deliverables);
    if unmet == [] {
      c := None;
    } else {
      c := Some(Conflict("CONF-002", TimelineConflict, AgentsOf(unmet), UnmetDependencies(unmet), "medium", None));
    }
  }

  /** The dependencies and deliverables of every report's timeline, in report order. */
  method CollectTimelines(outputs: seq<(string, WorkerReport)>)
    returns (dependencies: seq<Dependency>, deliverables: seq<DeliveredItem>)
    ensures dependencies == AllDependencies(outputs) && deliverables == AllDeliverables(outputs)
  {
    dependencies, deliverables := [], [];
    for i := 0 to |outputs|
      invariant dependencies == AllDependencies(outputs[..i])
      invariant deliverables == AllDeliverables(outputs[..i])
    {
      assert outputs[..i + 1][..i] == outputs[..i];
      var (name, w) := outputs[i];
      if w.timeline.Some? {
        dependencies := dependencies + DependenciesOf(name, w.timeline.value);
        deliverables := deliverables + DeliverablesOf(name, w.timeline.value);
      }
    }
    assert outputs[..|outputs|] == outputs;
  }

  /** Keeps, in order, the dependencies that no deliverable satisfies. */
  method ScanUnmet(dependencies: seq<Dependency>, deliverables: seq<DeliveredItem>) returns (unmet: seq<Dependency>)
    ensures unmet == Unmet(dependencies, deliverables)
  {
    unmet := [];
    for i := 0 to |dependencies|
      invariant unmet == Unmet(dependencies[..i], deliverables)
    {
      assert dependencies[..i + 1][..i] == dependencies[..i];
      if !Delivered(dependencies[i].dependsOn, deliverables) {
        unmet := unmet + [dependencies[i]];
      }
    }
    assert dependencies[..|dependencies|] == dependencies;
  }

  // ----- Strategic pass -----

  /** The strategies by agent, as the dict `strategies` holds them. */
  function StrategiesOf(outputs: seq<(string, WorkerReport)>): (t: seq<(string, Strategy)>)
    ensures UniqueKeys(t)
  {
    if outputs == [] then []
    else
      var prev := StrategiesOf(outputs[..|outputs| - 1]);
      var (name, w) := outputs[|outputs| - 1];
      if w.strategy.Some? then Upsert(prev, name, w.strategy.value) else prev
  }

  /** `strategies.get(agent, {})`. */
  function StrategyFor(strategies: seq<(string, Strategy)>, agent: string): Strategy {
    Lookup(strategies, agent).GetOr(Strategy(None, None, None))
  }

  /** The contradictions among the strategies, in the order they are checked. */
  function ContradictionsOf(strategies: seq<(string, Strategy)>): (cs: seq<Contradiction>)
    ensures CacConflict in cs <==>
              StrategyFor(strategies, "marketing_agent").cacDirection == Some("increase")
              && StrategyFor(strategies, "finance_agent").cacDirection == Some("decrease")
    ensures PricingConflict in cs <==>
              StrategyFor(strategies, "sales_agent").pricingStrategy == Some("aggressive_discount")
              && StrategyFor(strategies, "finance_agent").marginProtection == Some(true)
  {
    var marketing := StrategyFor(strategies, "marketing_agent");
    var finance := StrategyFor(strategies, "finance_agent");
    var sales := StrategyFor(strategies, "sales_agent");
    (if marketing.cacDirection == Some("increase") && finance.cacDirection == Some("decrease") then [CacConflict] else [])
    + (if sales.pricingStrategy == Some("aggressive_discount") && finance.marginProtection == Some(true) then [PricingConflict] else [])
  }

  /** What the strategic pass reports. */
  function StrategicConflictOf(outputs: seq<(string, WorkerReport)>): (c: Option<Conflict>)
    ensures c.Some? <==> ContradictionsOf(StrategiesOf(outputs)) != []
    ensures c.Some? ==>
              c.value.conflictId == "CONF-003" && c.value.kind == StrategicMisalignment
              && c.value.severity == "critical" && c.value.resolution.None?
              && c.value.agentsInvolved == Keys(StrategiesOf(outputs))
              && c.value.data == Contradictions(ContradictionsOf(StrategiesOf(outputs)))
  {
    var strategies := StrategiesOf(outputs);
    var cs := ContradictionsOf(strategies);
    if cs == [] then None
    else Some(Conflict("CONF-003", StrategicMisalignment, Keys(strategies), Contradictions(cs), "critical", None))
  }

  /** `_detect_strategic_misalignment`: collects the strategies, then checks the two known contradictions. */
  method DetectStrategicMisalignment(outputs: seq<(string, WorkerReport)>) returns (c: Option<Conflict>)
    ensures c == StrategicConflictOf(outputs)
  {
    var strategies: seq<(string, Strategy)> := [];
    for i := 0 to |outputs|
      invariant strategies == StrategiesOf(outputs[..i])
    {
      assert outputs[..i + 1][..i] == outputs[..i];
      var (name, w) := outputs[i];
      if w.strategy.Some? {
        strategies := Upsert(strategies, name, w.strategy.value);
      }
    }
    assert outputs[..|outputs|] == outputs;
    var contradictions := ContradictionsOf(strategies);
    if contradictions == [] {
      c := None;
    } else {
      c := Some(Conflict("CONF-003", StrategicMisalignment, Keys(strategies), Contradictions(contradictions), "critical", None));
    }
  }

  // ----- Resource pass -----

  /** The resource requests of one report, filed under the resource's name. */
  function ResourceLinesOf(agent: string, reqs: seq<ResourceRequest>): (ls: seq<(Option<string>, ResourceLine)>)
    ensures |ls| == |reqs|
    ensures forall i :: 0 <= i < |reqs| ==>
              ls[i] == (reqs[i].resource, ResourceLine(agent, reqs[i].amount.GetOr(1.0), reqs[i].priority.GetOr("medium")))
  {
    seq(|reqs|, i requires 0 <= i < |reqs| =>
          (reqs[i].resource, ResourceLine(agent, reqs[i].amount.GetOr(1.0), reqs[i].priority.GetOr("medium"))))
  }

  function ResourceItems(outputs: seq<(string, WorkerReport)>): seq<(Option<string>, ResourceLine)> {
    if outputs == [] then []
    else
      var (name, w) := outputs[|outputs| - 1];
      ResourceItems(outputs[..|outputs| - 1])
        + (if w.resourceRequests.Some? then ResourceLinesOf(name, w.resourceRequests.value) else [])
  }

  /** A resource is contended when more than one request asks for it and they total more than 3. */
  predicate Contended(lines: seq<ResourceLine>) {
    |lines| > 1 && ResourceTotal(lines) > 3.0
  }

  /** The contended resources among `names`, in order. */
  function ContendedResources(names: seq<Option<string>>, items: seq<(Option<string>, ResourceLine)>): seq<Contention> {
    if names == [] then []
    else
      var n := names[|names| - 1];
      var prev := ContendedResources(names[..|names| - 1], items);
      var g := GroupOf(items, n);
      if Contended(g) then prev + [Contention(n, ResourceTotal(g), g)] else prev
  }

  /** No resource is reported exactly when none of `names` is contended. */
  lemma {:induction false} ContendedResourcesEmpty(names: seq<Option<string>>, items: seq<(Option<string>, ResourceLine)>)
    ensures ContendedResources(names, items) == [] <==> forall n :: n in names ==> !Contended(GroupOf(items, n))
  {
    if names != [] {
      var n := names[|names| - 1];
      var prefix := names[..|names| - 1];
      assert names == prefix + [n];
      ContendedResourcesEmpty(prefix, items);
      if ContendedResources(names, items) == [] {
        assert ContendedResources(prefix, items) == [] && !Contended(GroupOf(items, n));
        forall x | x in names ensures !Contended(GroupOf(items, x)) {
          assert x in prefix || x == n;
        }
      } else if Contended(GroupOf(items, n)) {
        assert n in names;
      } else {
        var x :| x in prefix && Contended(GroupOf(items, x));
        assert x in names;
      }
    }
  }

  /** Each reported contention is a resource of `names` whose grouped requests are contended. */
  lemma {:induction false} ContendedResourcesSound(names: seq<Option<string>>, items: seq<(Option<string>, ResourceLine)>, c: Contention)
    requires c in ContendedResources(names, items)
    ensures c.resource in names && c.requests == GroupOf(items, c.resource)
    ensures c.totalRequested == ResourceTotal(c.requests) && Contended(c.requests)
  {
    var n := names[|names| - 1];
    assert names == names[..|names| - 1] + [n];
    if c in ContendedResources(names[..|names| - 1], items) {
      ContendedResourcesSound(names[..|names| - 1], items, c);
    }
  }

  function RequestersOf(cs: seq<Contention>): (agents: seq<string>)
    ensures forall a :: a in agents <==> exists c, l :: c in cs && l in c.requests && l.agent == a
  {
    if cs == [] then []
    else
      var last := cs[|cs| - 1];
      assert cs == cs[..|cs| - 1] + [last];
      RequestersOf(cs[..|cs| - 1]) + AgentsOfLines(last.requests)
  }

  function AgentsOfLines(ls: seq<ResourceLine>): (agents: seq<string>)
    ensures forall a :: a in agents <==> exists l :: l in ls && l.agent == a
  {
    var agents := seq(|ls|, i requires 0 <= i < |ls| => ls[i].agent);
    assert forall a :: a in agents ==> exists l :: l in ls && l.agent == a by {
      forall a | a in agents ensures exists l :: l in ls && l.agent == a {
        var i :| 0 <= i < |agents| && agents[i] == a;
        assert ls[i] in ls;
      }
    }
    assert forall l :: l in ls ==> l.agent in agents by {
      forall l | l in ls ensures l.agent in agents {
        var i :| 0 <= i < |ls| && ls[i] == l;
        assert agents[i] == l.agent;
      }
    }
    agents
  }

  /** What the resource pass reports. */
  function ResourceConflictOf(outputs: seq<(string, WorkerReport)>): (c: Option<Conflict>)
    ensures c.Some? <==> exists n :: n in KeysOf(ResourceItems(outputs)) && Contended(GroupOf(ResourceItems(outputs), n))
    ensures c.Some? ==>
              c.value.conflictId == "CONF-004" && c.value.kind == ResourceContention
              && c.value.severity == "medium" && c.value.resolution.None? && Distinct(c.value.agentsInvolved)
              && c.value.data == Contentions(ContendedResources(KeysOf(ResourceItems(outputs)), ResourceItems(outputs)))
              && c.value.data.contentions != []
              && (forall a :: a in c.value.agentsInvolved <==> a in RequestersOf(c.value.data.contentions))
  {
    var items := ResourceItems(outputs);
    var cs := ContendedResources(KeysOf(items), items);
    ContendedResourcesEmpty(KeysOf(items), items);
    if cs == [] then None
    else Some(Conflict("CONF-004", ResourceContention, Dedup(RequestersOf(cs)), Contentions(cs), "medium", None))
  }

  /** `_detect_resource_contention`: groups the requests by resource, then checks each resource. */
  method DetectResourceContention(outputs: seq<(string, WorkerReport)>) returns (c: Option<Conflict>)
    ensures c == ResourceConflictOf(outputs)
  {
    var items := CollectResourceItems(outputs);
    var order, groups := GroupBy(items);
    var contentions := ScanContentions(order, groups, items);
    if contentions == [] {
      c := None;
    } else {
      c := Some(Conflict("CONF-004", ResourceContention, Dedup(RequestersOf(contentions)), Contentions(contentions), "medium", None));
    }
  }

  /** The resource requests of every report, in report order. */
  method CollectResourceItems(outputs: seq<(string, WorkerReport)>) returns (items: seq<(Option<string>, ResourceLine)>)
    ensures items == ResourceItems(outputs)
  {
    items := [];
    for i := 0 to |outputs|
      invariant items == ResourceItems(outputs[..i])
    {
      assert outputs[..i + 1][..i] == outputs[..i];
      var (name, w) := outputs[i];
      if w.resourceRequests.Some? {
        items := items + ResourceLinesOf(name, w.resourceRequests.value);
      }
    }
    assert outputs[..|outputs|] == outputs;
  }

  /** The resource-by-resource check of the resource pass, over the grouped requests. */
  method ScanContentions(order: seq<Option<string>>, groups: map<Option<string>, seq<ResourceLine>>,
                         items: seq<(Option<string>, ResourceLine)>)
    returns (contentions: seq<Contention>)
    requires forall n :: n in order ==> n in groups && groups[n] == GroupOf(items, n)
    ensures contentions == ContendedResources(order, items)
  {
    contentions := [];
    for i := 0 to |order|
      invariant contentions == ContendedResources(order[..i], items)
    {
      assert order[..i + 1][..i] == order[..i];
      var name := order[i];
      var requests := groups[name];
      if |requests| > 1 {
        var total := ResourceTotal(requests);
        if total > 3.0 {
          contentions := contentions + [Contention(name, total, requests)];
        }
      }
    }
    assert order[..|order|] == order;
  }

  // ----- All passes -----

  /** A pass's finding as a list of zero or one conflict. */
  function Listed(c: Option<Conflict>): (r: seq<Conflict>)
    ensures r == [] <==> c.None?
    ensures forall x :: x in r <==> c == Some(x)
  {
    if c.Some? then [c.value] else []
  }

  /** `detect_conflicts`: the budget, timeline, strategic and resource passes, in that order. */
  function DetectAll(outputs: seq<(string, WorkerReport)>, limits: map<string, real>): seq<Conflict> {
    Listed(BudgetConflictOf(outputs, limits)) + Listed(TimelineConflictOf(outputs))
    + Listed(StrategicConflictOf(outputs)) + Listed(ResourceConflictOf(outputs))
  }

  /** A pass finds nothing, or one unresolved conflict with the pass's id and severity. */
  predicate PassFinding(c: Option<Conflict>, id: string, severity: string) {
    c.None? || (c.value.conflictId == id && c.value.severity == severity && c.value.resolution.None?)
  }

  lemma PassFindings(outputs: seq<(string, WorkerReport)>, limits: map<string, real>)
    ensures PassFinding(BudgetConflictOf(outputs, limits), "CONF-001", "high")
    ensures PassFinding(TimelineConflictOf(outputs), "CONF-002", "medium")
    ensures PassFinding(StrategicConflictOf(outputs), "CONF-003", "critical")
    ensures PassFinding(ResourceConflictOf(outputs), "CONF-004", "medium")
  {
  }

  /** The shape of four findings put together, and which of them makes the report critical. */
  lemma {:induction false} FindingsShape(b: Option<Conflict>, t: Option<Conflict>, s: Option<Conflict>, r: Option<Conflict>)
    requires PassFinding(b, "CONF-001", "high") && PassFinding(t, "CONF-002", "medium")
    requires PassFinding(s, "CONF-003", "critical") && PassFinding(r, "CONF-004", "medium")
    ensures |Listed(b) + Listed(t) + Listed(s) + Listed(r)| <= 4
    ensures forall c :: c in Listed(b) + Listed(t) + Listed(s) + Listed(r) ==>
              c.resolution.None? && c.conflictId in ["CONF-001", "CONF-002", "CONF-003", "CONF-004"]
    ensures Listed(b) + Listed(t) + Listed(s) + Listed(r) == [] <==> b.None? && t.None? && s.None? && r.None?
    ensures AlignmentReportOf(Listed(b) + Listed(t) + Listed(s) + Listed(r)).Status() == "NEEDS_RESOLUTION"
        <==> s.Some?
  {
    var cs := Listed(b) + Listed(t) + Listed(s) + Listed(r);
    assert forall c :: c in cs <==> Some(c) in [b, t, s, r];
    if s.Some? {
      assert s.value in cs;
      var i :| 0 <= i < |cs| && cs[i] == s.value;
    } else {
      forall i | 0 <= i < |cs| ensures cs[i].severity != "critical" {
        assert cs[i] in cs;
      }
    }
  }

  /**
   * At most one conflict per pass, identified CONF-001 to CONF-004, none of
   * them resolved yet; no conflict at all exactly when every pass is quiet.
   */
  lemma DetectAllShape(outputs: seq<(string, WorkerReport)>, limits: map<string, real>)
    ensures |DetectAll(outputs, limits)| <= 4
    ensures forall c :: c in DetectAll(outputs, limits) ==>
              c.resolution.None? && c.conflictId in ["CONF-001", "CONF-002", "CONF-003", "CONF-004"]
    ensures DetectAll(outputs, limits) == [] <==>
              BudgetConflictOf(outputs, limits).None? && TimelineConflictOf(outputs).None?
              && StrategicConflictOf(outputs).None? && ResourceConflictOf(outputs).None?
  {
    PassFindings(outputs, limits);
    FindingsShape(BudgetConflictOf(outputs, limits), TimelineConflictOf(outputs),
                  StrategicConflictOf(outputs), ResourceConflictOf(outputs));
  }

  /** A report with none of the four sections raises no conflict. */
  lemma NoSectionsNoConflicts(outputs: seq<(string, WorkerReport)>, limits: map<string, real>)
    requires forall i :: 0 <= i < |outputs| ==> outputs[i].1 == WorkerReport(None, None, None, None)
    ensures DetectAll(outputs, limits) == []
  {
    NoSectionsNoItems(outputs);
    assert BudgetConflictOf(outputs, limits).None? by {
      assert KeysOf(BudgetItems(outputs)) == [];
    }
    assert TimelineConflictOf(outputs).None?;
    assert StrategicConflictOf(outputs).None? by {
      assert Lookup(StrategiesOf(outputs), "marketing_agent").None?;
      assert Lookup(StrategiesOf(outputs), "sales_agent").None?;
    }
    assert ResourceConflictOf(outputs).None? by {
      assert KeysOf(ResourceItems(outputs)) == [];
    }
  }

  lemma {:induction false} NoSectionsNoItems(outputs: seq<(string, WorkerReport)>)
    requires forall i :: 0 <= i < |outputs| ==> outputs[i].1 == WorkerReport(None, None, None, None)
    ensures BudgetItems(outputs) == [] && AllDependencies(outputs) == []
    ensures StrategiesOf(outputs) == [] && ResourceItems(outputs) == []
  {
    if outputs != [] {
      NoSectionsNoItems(outputs[..|outputs| - 1]);
    }
  }

  // ----- Budget resolution -----

  /** `priority_order.get(priority, 2)`, where a missing priority counts as "medium". */
  function PriorityRank(priority: Option<string>): (k: nat)
    ensures k <= 3
  {
    var p := priority.GetOr("medium");
    if p == "critical" then 0 else if p == "high" then 1 else if p == "medium" then 2 else if p == "low" then 3 else 2
  }

  /** The lines of rank `k`, in their original order. */
  function Bucket(lines: seq<BudgetLine>, k: nat): (b: seq<BudgetLine>)
    ensures forall l :: l in b ==> PriorityRank(l.priority) == k
  {
    if lines == [] then []
    else
      var last := lines[|lines| - 1];
      Bucket(lines[..|lines| - 1], k) + (if PriorityRank(last.priority) == k then [last] else [])
  }

  /**
   * Python's stable `sorted` by priority rank: the lines of rank 0, then 1,
   * 2 and 3, each group in its original order.
   */
  function SortByPriority(lines: seq<BudgetLine>): seq<BudgetLine> {
    Bucket(lines, 0) + Bucket(lines, 1) + Bucket(lines, 2) + Bucket(lines, 3)
  }

  predicate RankSorted(lines: seq<BudgetLine>) {
    forall i, j :: 0 <= i < j < |lines| ==> PriorityRank(lines[i].priority) <= PriorityRank(lines[j].priority)
  }

  /** The four buckets together hold exactly the lines. */
  lemma {:induction false} BucketsPartition(lines: seq<BudgetLine>)
    ensures multiset(Bucket(lines, 0)) + multiset(Bucket(lines, 1)) + multiset(Bucket(lines, 2))
            + multiset(Bucket(lines, 3)) == multiset(lines)
  {
    if lines != [] {
      var last := lines[|lines| - 1];
      assert lines == lines[..|lines| - 1] + [last];
      BucketsPartition(lines[..|lines| - 1]);
    }
  }

  lemma ConcatRankSorted(a: seq<BudgetLine>, b: seq<BudgetLine>, m: nat)
    requires RankSorted(a) && RankSorted(b)
    requires forall l :: l in a ==> PriorityRank(l.priority) <= m
    requires forall l :: l in b ==> PriorityRank(l.priority) >= m
    ensures RankSorted(a + b)
  {
    forall i, j | 0 <= i < j < |a + b|
      ensures PriorityRank((a + b)[i].priority) <= PriorityRank((a + b)[j].priority)
    {
      if j < |a| {
        assert (a + b)[i] == a[i] && (a + b)[j] == a[j];
      } else if i >= |a| {
        assert (a + b)[i] == b[i - |a|] && (a + b)[j] == b[j - |a|];
      } else {
        assert (a + b)[i] == a[i] && a[i] in a;
        assert (a + b)[j] == b[j - |a|] && b[j - |a|] in b;
      }
    }
  }

  /** Taking the lines of one rank distributes over concatenation. */
  lemma {:induction false} BucketConcat(a: seq<BudgetLine>, b: seq<BudgetLine>, k: nat)
    ensures Bucket(a + b, k) == Bucket(a, k) + Bucket(b, k)
  {
    if b == [] {
      assert a + b == a;
      AppendEmpty(Bucket(a, k));
    } else {
      var ab, init := a + b, b[..|b| - 1];
      assert ab[..|ab| - 1] == a + init && ab[|ab| - 1] == b[|b| - 1];
      BucketConcat(a, init, k);
      AppendAssoc(Bucket(a, k), Bucket(init, k), if PriorityRank(b[|b| - 1].priority) == k then [b[|b| - 1]] else []);
    }
  }

  /** Within the lines of rank `j`, those of rank `k` are all of them when `j == k`, and none otherwise. */
  lemma {:induction false} BucketOfBucket(lines: seq<BudgetLine>, j: nat, k: nat)
    ensures Bucket(Bucket(lines, j), k) == if j == k then Bucket(lines, k) else []
  {
    if lines != [] {
      var init, last := lines[..|lines| - 1], lines[|lines| - 1];
      var tail := if PriorityRank(last.priority) == j then [last] else [];
      BucketOfBucket(init, j, k);
      BucketConcat(Bucket(init, j), tail, k);
      if tail != [] {
        assert tail[..0] == [];
      }
    }
  }

  /** No line has a rank above 3. */
  lemma {:induction false} BucketBeyond(lines: seq<BudgetLine>, k: nat)
    requires k > 3
    ensures Bucket(lines, k) == []
  {
    if lines != [] {
      BucketBeyond(lines[..|lines| - 1], k);
    }
  }

  /** The lines of rank `k` in the sorted list, bucket by bucket. */
  lemma SortedBucketSplit(lines: seq<BudgetLine>, k: nat)
    ensures Bucket(SortByPriority(lines), k)
         == Bucket(Bucket(lines, 0), k) + Bucket(Bucket(lines, 1), k)
            + Bucket(Bucket(lines, 2), k) + Bucket(Bucket(lines, 3), k)
  {
    var b0, b1, b2, b3 := Bucket(lines, 0), Bucket(lines, 1), Bucket(lines, 2), Bucket(lines, 3);
    BucketConcat(b0 + b1 + b2, b3, k);
    BucketConcat(b0 + b1, b2, k);
    BucketConcat(b0, b1, k);
  }

  /** Sorting leaves the lines of each rank as they were, in their original order. */
  lemma SortByPriorityBucket(lines: seq<BudgetLine>, k: nat)
    ensures Bucket(SortByPriority(lines), k) == Bucket(lines, k)
  {
    SortedBucketSplit(lines, k);
    BucketOfBucket(lines, 0, k);
    BucketOfBucket(lines, 1, k);
    BucketOfBucket(lines, 2, k);
    BucketOfBucket(lines, 3, k);
    var bk: seq<BudgetLine>, none: seq<BudgetLine> := Bucket(lines, k), [];
    if k == 0 {
      AppendEmpty(bk);
    } else if k == 1 {
      EmptyAppend(bk);
      AppendEmpty(bk);
    } else if k == 2 {
      EmptyAppend(none);
      EmptyAppend(bk);
      AppendEmpty(bk);
    } else if k == 3 {
      EmptyAppend(none);
      EmptyAppend(bk);
    } else {
      BucketBeyond(lines, k);
      EmptyAppend(none);
    }
  }

  /** Sorting keeps the lines and their number. */
  lemma SortByPriorityPermutes(lines: seq<BudgetLine>)
    ensures multiset(SortByPriority(lines)) == multiset(lines)
    ensures |SortByPriority(lines)| == |lines|
  {
    BucketsPartition(lines);
    var sorted := SortByPriority(lines);
    assert multiset(sorted) == multiset(Bucket(lines, 0)) + multiset(Bucket(lines, 1))
                               + multiset(Bucket(lines, 2)) + multiset(Bucket(lines, 3));
    assert |sorted| == |multiset(sorted)| == |multiset(lines)| == |lines|;
  }

  /** The sorted lines are in rank order. */
  lemma SortByPriorityRanked(lines: seq<BudgetLine>)
    ensures RankSorted(SortByPriority(lines))
  {
    var b0, b1, b2, b3 := Bucket(lines, 0), Bucket(lines, 1), Bucket(lines, 2), Bucket(lines, 3);
    assert RankSorted(b0) && RankSorted(b1) && RankSorted(b2) && RankSorted(b3) by {
      assert forall i :: 0 <= i < |b0| ==> b0[i] in b0;
      assert forall i :: 0 <= i < |b1| ==> b1[i] in b1;
      assert forall i :: 0 <= i < |b2| ==> b2[i] in b2;
      assert forall i :: 0 <= i < |b3| ==> b3[i] in b3;
    }
    ConcatRankSorted(b0, b1, 0);
    ConcatRankSorted(b0 + b1, b2, 1);
    ConcatRankSorted(b0 + b1 + b2, b3, 2);
  }

  /**
   * Sorting yields a permutation of the lines, of the same length, ordered
   * by rank, and stable: the lines of each rank keep their original order.
   */
  lemma SortByPriorityCorrect(lines: seq<BudgetLine>)
    ensures multiset(SortByPriority(lines)) == multiset(lines)
    ensures |SortByPriority(lines)| == |lines|
    ensures RankSorted(SortByPriority(lines))
    ensures forall k :: Bucket(SortByPriority(lines), k) == Bucket(lines, k)
  {
    SortByPriorityPermutes(lines);
    SortByPriorityRanked(lines);
    var sorted := SortByPriority(lines);
    forall k: nat ensures Bucket(sorted, k) == Bucket(lines, k) {
      SortByPriorityBucket(lines, k);
    }
  }

  function Allocated(a: Allocation): real {
    a.amount
  }

  function SumAllocated(allocs: seq<Allocation>): real {
    if allocs == [] then 0.0 else SumAllocated(allocs[..|allocs| - 1]) + Allocated(allocs[|allocs| - 1])
  }

  datatype AllocationResult = AllocationResult(allocations: seq<Allocation>, remaining: real)

  /** One greedy step: fund the request in full if it fits, otherwise give it all that remains. */
  function AllocateStep(line: BudgetLine, remaining: real): (r: (Allocation, real))
    ensures r.0.agent == line.agent && Allocated(r.0) <= line.amount
    ensures Allocated(r.0) + r.1 == remaining
  {
    if line.amount <= remaining then (FullyFunded(line.agent, line.amount), remaining - line.amount)
    else (PartiallyFunded(line.agent, remaining, line.amount), 0.0)
  }

  /**
   * The greedy allocation of `available` over `lines` in order: one
   * allocation per line, never more than its request, and what is allocs
   * plus what remains is what was available.
   */
  function Allocate(lines: seq<BudgetLine>, available: real): (r: AllocationResult)
    ensures |r.allocations| == |lines|
    ensures forall i :: 0 <= i < |lines| ==>
              r.allocations[i].agent == lines[i].agent && Allocated(r.allocations[i]) <= lines[i].amount
    ensures SumAllocated(r.allocations) + r.remaining == available
  {
    if lines == [] then AllocationResult([], available)
    else
      var prev := Allocate(lines[..|lines| - 1], available);
      var step := AllocateStep(lines[|lines| - 1], prev.remaining);
      var allocs := prev.allocations + [step.0];
      assert allocs[..|allocs| - 1] == prev.allocations;
      AllocationResult(allocs, step.1)
  }

  /** Once a request has been seen, nothing remains below zero. */
  lemma {:induction false} RemainingNonNegative(lines: seq<BudgetLine>, available: real)
    requires lines != [] || available >= 0.0
    ensures Allocate(lines, available).remaining >= 0.0
  {
    if |lines| > 1 {
      RemainingNonNegative(lines[..|lines| - 1], available);
    }
  }

  /** With non-negative requests, what remains is either nothing or the untouched slack. */
  lemma {:induction false} RemainingZeroOrSlack(lines: seq<BudgetLine>, available: real)
    requires forall i :: 0 <= i < |lines| ==> lines[i].amount >= 0.0
    ensures Allocate(lines, available).remaining == 0.0
         || Allocate(lines, available).remaining == available - TotalAmount(lines)
  {
    if lines != [] {
      RemainingZeroOrSlack(lines[..|lines| - 1], available);
    }
  }

  /**
   * When more is requested than is available (and neither is negative), the
   * whole available amount is handed out and nothing remains.
   */
  lemma AllocationExhaustsBudget(lines: seq<BudgetLine>, available: real)
    requires forall i :: 0 <= i < |lines| ==> lines[i].amount >= 0.0
    requires available >= 0.0 && TotalAmount(lines) > available
    ensures Allocate(lines, available).remaining == 0.0
    ensures SumAllocated(Allocate(lines, available).allocations) == available
  {
    RemainingNonNegative(lines, available);
    RemainingZeroOrSlack(lines, available);
  }

  /** What is left of `available` once `spent` has been handed out, never below zero. */
  function Headroom(available: real, spent: real): real {
    if available - spent >= 0.0 then available - spent else 0.0
  }

  /** The `i`-th allocation is the greedy step on the `i`-th line with what the earlier lines left. */
  lemma {:induction false} AllocationAt(lines: seq<BudgetLine>, available: real, i: nat)
    requires i < |lines|
    ensures Allocate(lines, available).allocations[i]
         == AllocateStep(lines[i], Allocate(lines[..i], available).remaining).0
  {
    var init := lines[..|lines| - 1];
    if i < |init| {
      assert init[..i] == lines[..i] && init[i] == lines[i];
      AllocationAt(init, available, i);
    } else {
      assert lines[..i] == init;
    }
  }

  /**
   * With non-negative requests, what remains after a line is what is
   * available less everything requested so far, or zero once that runs out.
   */
  lemma {:induction false} RemainingClosedForm(lines: seq<BudgetLine>, available: real)
    requires forall i :: 0 <= i < |lines| ==> lines[i].amount >= 0.0
    ensures Allocate(lines, available).remaining
         == if lines == [] then available else Headroom(available, TotalAmount(lines))
  {
    if lines != [] {
      RemainingClosedForm(lines[..|lines| - 1], available);
    }
  }

  /**
   * The greedy allocation in closed form: with non-negative requests, line
   * `i` is fully funded exactly when its amount fits in what the lines
   * before it left (all of `available` for the first line), and otherwise
   * receives all of that remainder as a partial funding.
   */
  lemma AllocateGreedy(lines: seq<BudgetLine>, available: real)
    requires forall i :: 0 <= i < |lines| ==> lines[i].amount >= 0.0
    ensures forall i :: 0 <= i < |lines| ==>
              var room := if i == 0 then available else Headroom(available, TotalAmount(lines[..i]));
              Allocate(lines, available).allocations[i]
              == if lines[i].amount <= room then FullyFunded(lines[i].agent, lines[i].amount)
                 else PartiallyFunded(lines[i].agent, room, lines[i].amount)
  {
    forall i | 0 <= i < |lines|
      ensures var room := if i == 0 then available else Headroom(available, TotalAmount(lines[..i]));
              Allocate(lines, available).allocations[i]
              == if lines[i].amount <= room then FullyFunded(lines[i].agent, lines[i].amount)
                 else PartiallyFunded(lines[i].agent, room, lines[i].amount)
    {
      AllocationAt(lines, available, i);
      assert forall j :: 0 <= j < i ==> lines[..i][j] == lines[j];
      RemainingClosedForm(lines[..i], available);
    }
  }

  /** `_resolve_budget_conflict`'s allocation loop. */
  method AllocateBudget(lines: seq<BudgetLine>, available: real) returns (allocs: seq<Allocation>, remaining: real)
    ensures AllocationResult(allocs, remaining) == Allocate(lines, available)
  {
    allocs, remaining := [], available;
    for i := 0 to |lines|
      invariant AllocationResult(allocs, remaining) == Allocate(lines[..i], available)
    {
      assert lines[..i + 1][..i] == lines[..i];
      var req := lines[i];
      if req.amount <= remaining {
        allocs := allocs + [FullyFunded(req.agent, req.amount)];
        remaining := remaining - req.amount;
      } else {
        allocs := allocs + [PartiallyFunded(req.agent, remaining, req.amount)];
        remaining := 0.0;
      }
    }
    assert lines[..|lines|] == lines;
  }

  /** The budget strategy's outcome: allocate the first department's available budget by priority. */
  function BudgetResolutionOf(c: Conflict): Resolution {
    if !c.data.BudgetConflicts? || c.data.shortfalls == [] then NoConflictData
    else
      var first := c.data.shortfalls[0];
      var r := Allocate(SortByPriority(first.requests), first.available);
      BudgetAllocated(r.allocations, r.remaining)
  }

  /** The `requires_ceo_approval` flag of a budget outcome. */
  predicate RequiresCeoApproval(r: Resolution) {
    r.BudgetAllocated? && r.remaining < 0.0
  }

  /** `_resolve_budget_conflict`. */
  method ResolveBudgetConflict(c: Conflict) returns (r: Resolution)
    ensures r == BudgetResolutionOf(c)
  {
    if !c.data.BudgetConflicts? || c.data.shortfalls == [] {
      return NoConflictData;
    }
    var first := c.data.shortfalls[0];
    var sorted := SortByPriority(first.requests);
    var allocs, remaining := AllocateBudget(sorted, first.available);
    r := BudgetAllocated(allocs, remaining);
  }

  // ----- Resolution -----

  /** The outcome of the conflict kind's strategy, or `None` for a kind without one. */
  function StrategyOutcome(c: Conflict): Option<Resolution> {
    match c.kind
    case BudgetOverallocation => Some(BudgetResolutionOf(c))
    case ResourceContention => Some(TimePhasing)
    case StrategicMisalignment => Some(StrategicEscalation(if c.data.Contradictions? then c.data.contradictions else []))
    case TimelineConflict => Some(CriticalPathAdjustment)
    case PriorityConflict => Some(ImpactRanking)
    case DependencyUnmet => None
  }

  /** Looks up the conflict kind's strategy and runs it. */
  method RunStrategy(c: Conflict) returns (outcome: Option<Resolution>)
    ensures outcome == StrategyOutcome(c)
  {
    match c.kind {
      case BudgetOverallocation =>
        var r := ResolveBudgetConflict(c);
        outcome := Some(r);
      case ResourceContention => outcome := Some(TimePhasing);
      case StrategicMisalignment =>
        outcome := Some(StrategicEscalation(if c.data.Contradictions? then c.data.contradictions else []));
      case TimelineConflict => outcome := Some(CriticalPathAdjustment);
      case PriorityConflict => outcome := Some(ImpactRanking);
      case DependencyUnmet => outcome := None;
    }
  }

  /** The conflict after its strategy has recorded its outcome on it. */
  function Applied(c: Conflict): (a: Conflict)
    ensures a.conflictId == c.conflictId && a.kind == c.kind && a.severity == c.severity
    ensures a.agentsInvolved == c.agentsInvolved && a.data == c.data
    ensures a.resolution == if StrategyOutcome(c).Some? then StrategyOutcome(c) else c.resolution
  {
    match StrategyOutcome(c)
    case None => c
    case Some(r) => c.(resolution := Some(r))
  }

  /** A conflict stays unresolved when its kind has no strategy or its strategy reports failure. */
  predicate LeftUnresolved(c: Conflict) {
    StrategyOutcome(c).None? || !StrategyOutcome(c).value.Resolved()
  }

  /** Resource, timeline and priority conflicts are always resolved; strategic and dependency ones never. */
  lemma ResolutionByKind(c: Conflict)
    ensures c.kind in {ResourceContention, TimelineConflict, PriorityConflict} ==> !LeftUnresolved(c)
    ensures c.kind in {StrategicMisalignment, DependencyUnmet} ==> LeftUnresolved(c)
  {
  }

  /** A budget conflict from the budget pass is always resolved and never needs the CEO. */
  lemma DetectedBudgetConflictResolved(outputs: seq<(string, WorkerReport)>, limits: map<string, real>)
    requires BudgetConflictOf(outputs, limits).Some?
    ensures !LeftUnresolved(BudgetConflictOf(outputs, limits).value)
    ensures !RequiresCeoApproval(BudgetResolutionOf(BudgetConflictOf(outputs, limits).value))
  {
    var c := BudgetConflictOf(outputs, limits).value;
    BudgetConflictShortfall(outputs, limits, c.data.shortfalls[0]);
    BudgetResolvedWhenRequested(c);
  }

  /** The budget strategy resolves a conflict whose first shortfall holds at least one request. */
  lemma BudgetResolvedWhenRequested(c: Conflict)
    requires c.kind == BudgetOverallocation && c.data.BudgetConflicts? && c.data.shortfalls != []
    requires c.data.shortfalls[0].requests != []
    ensures !LeftUnresolved(c) && !RequiresCeoApproval(BudgetResolutionOf(c))
  {
    var first := c.data.shortfalls[0];
    var sorted := SortByPriority(first.requests);
    SortByPriorityPermutes(first.requests);
    RemainingNonNegative(sorted, first.available);
    var r := Allocate(sorted, first.available);
    assert BudgetResolutionOf(c) == BudgetAllocated(r.allocations, r.remaining);
  }

  /** The conflicts left unresolved, as they stand after resolution, in order. */
  function UnresolvedOf(cs: seq<Conflict>): (u: seq<Conflict>)
    ensures |u| <= |cs|
  {
    if cs == [] then []
    else
      var last := cs[|cs| - 1];
      UnresolvedOf(cs[..|cs| - 1]) + (if LeftUnresolved(last) then [Applied(last)] else [])
  }

  /**
   * Every conflict its strategy leaves unresolved is on the list, as it
   * stands after resolution, and nothing else is.
   */
  lemma {:induction false} UnresolvedOfMembers(cs: seq<Conflict>)
    ensures forall c :: c in cs && LeftUnresolved(c) ==> Applied(c) in UnresolvedOf(cs)
    ensures forall a :: a in UnresolvedOf(cs) ==> exists c :: c in cs && LeftUnresolved(c) && a == Applied(c)
  {
    if cs != [] {
      var prev, last := cs[..|cs| - 1], cs[|cs| - 1];
      assert cs == prev + [last];
      UnresolvedOfMembers(prev);
      forall c | c in cs && LeftUnresolved(c) ensures Applied(c) in UnresolvedOf(cs) {
        if c != last {
          assert c in prev;
        }
      }
      forall a | a in UnresolvedOf(cs) ensures exists c :: c in cs && LeftUnresolved(c) && a == Applied(c) {
        if a in UnresolvedOf(prev) {
          var c :| c in prev && LeftUnresolved(c) && a == Applied(c);
          assert c in cs;
        } else {
          assert last in cs && LeftUnresolved(last) && a == Applied(last);
        }
      }
    }
  }

  lemma {:induction false} UnresolvedOfConcat(a: seq<Conflict>, b: seq<Conflict>)
    ensures UnresolvedOf(a + b) == UnresolvedOf(a) + UnresolvedOf(b)
  {
    if b != [] {
      var ab := a + b;
      assert ab[..|ab| - 1] == a + b[..|b| - 1] && ab[|ab| - 1] == b[|b| - 1];
      UnresolvedOfConcat(a, b[..|b| - 1]);
    } else {
      assert a + b == a;
    }
  }

  /** A single conflict stays on the unresolved list exactly when its strategy leaves it unresolved. */
  lemma UnresolvedOfListed(c: Option<Conflict>)
    ensures UnresolvedOf(Listed(c)) == if c.Some? && LeftUnresolved(c.value) then [Applied(c.value)] else []
  {
    if c.Some? {
      assert [c.value][..0] == [];
    }
  }

  /** Prepending conflicts that are all resolved leaves the unresolved list as it was. */
  lemma UnresolvedOfResolvedPrefix(a: seq<Conflict>, b: seq<Conflict>)
    requires UnresolvedOf(a) == []
    ensures UnresolvedOf(a + b) == UnresolvedOf(b)
  {
    UnresolvedOfConcat(a, b);
    assert [] + UnresolvedOf(b) == UnresolvedOf(b);
  }

  lemma UnresolvedFindings(b: Option<Conflict>, t: Option<Conflict>, s: Option<Conflict>, r: Option<Conflict>)
    requires b.Some? ==> !LeftUnresolved(b.value)
    requires t.Some? ==> t.value.kind == TimelineConflict
    requires s.Some? ==> s.value.kind == StrategicMisalignment
    requires r.Some? ==> r.value.kind == ResourceContention
    ensures UnresolvedOf(Listed(b) + Listed(t) + Listed(s) + Listed(r))
         == if s.Some? then [Applied(s.value)] else []
  {
    var lb, lt, ls, lr := Listed(b), Listed(t), Listed(s), Listed(r);
    var us := if s.Some? then [Applied(s.value)] else [];
    if t.Some? { ResolutionByKind(t.value); }
    if s.Some? { ResolutionByKind(s.value); }
    if r.Some? { ResolutionByKind(r.value); }
    UnresolvedOfListed(b);
    UnresolvedOfListed(t);
    UnresolvedOfListed(s);
    UnresolvedOfListed(r);
    UnresolvedOfResolvedPrefix(lb, lt);
    UnresolvedOfResolvedPrefix(lb + lt, ls);
    UnresolvedOfConcat(lb + lt + ls, lr);
    AppendEmpty(us);
  }

  /**
   * Resolving what the four passes detect leaves exactly the strategic
   * conflict unresolved, escalated to the CEO with its contradictions as
   * the options; the other three are always resolved.
   */
  lemma OnlyStrategicConflictStaysUnresolved(outputs: seq<(string, WorkerReport)>, limits: map<string, real>)
    ensures UnresolvedOf(DetectAll(outputs, limits))
         == if StrategicConflictOf(outputs).Some? then [Applied(StrategicConflictOf(outputs).value)] else []
  {
    if BudgetConflictOf(outputs, limits).Some? {
      DetectedBudgetConflictResolved(outputs, limits);
    }
    UnresolvedFindings(BudgetConflictOf(outputs, limits), TimelineConflictOf(outputs),
                       StrategicConflictOf(outputs), ResourceConflictOf(outputs));
  }

  /** The `(conflict id, outcome)` pairs recorded, one per conflict whose kind has a strategy. */
  function ResolutionsOf(cs: seq<Conflict>): seq<(string, Resolution)> {
    if cs == [] then []
    else
      var last := cs[|cs| - 1];
      ResolutionsOf(cs[..|cs| - 1])
        + (if StrategyOutcome(last).Some? then [(last.conflictId, StrategyOutcome(last).value)] else [])
  }

  /** Resolving conflict `i` after the earlier ones extends both lists by its own outcome. */
  lemma ResolutionStep(cs: seq<Conflict>, i: nat)
    requires i < |cs|
    ensures UnresolvedOf(cs[..i + 1]) == UnresolvedOf(cs[..i]) + (if LeftUnresolved(cs[i]) then [Applied(cs[i])] else [])
    ensures ResolutionsOf(cs[..i + 1])
            == ResolutionsOf(cs[..i])
               + (if StrategyOutcome(cs[i]).Some? then [(cs[i].conflictId, StrategyOutcome(cs[i]).value)] else [])
  {
    assert cs[..i + 1][..i] == cs[..i];
  }

  datatype ResolutionSummary = ResolutionSummary(resolutions: seq<(string, Resolution)>, unresolvedCount: nat)

  // ----- Alignment report -----

  datatype AlignmentReport =
    | AllAligned
    | ConflictReport(needsResolution: bool, conflictsDetected: nat, critical: nat, high: nat, medium: int,
                     unresolved: seq<string>)
  {
    function Status(): string {
      if AllAligned? then "ALIGNED" else if needsResolution then "NEEDS_RESOLUTION" else "MINOR_CONFLICTS"
    }
  }

  function CountSeverity(cs: seq<Conflict>, severity: string): (n: nat)
    ensures n <= |cs|
    ensures n > 0 <==> exists i :: 0 <= i < |cs| && cs[i].severity == severity
  {
    if cs == [] then 0
    else
      var prev := cs[..|cs| - 1];
      var n := CountSeverity(prev, severity);
      assert forall i :: 0 <= i < |prev| ==> prev[i] == cs[i];
      n + (if cs[|cs| - 1].severity == severity then 1 else 0)
  }

  /** The conflicts whose severity is neither critical nor high. */
  function CountOtherSeverity(cs: seq<Conflict>): nat {
    if cs == [] then 0
    else
      var s := cs[|cs| - 1].severity;
      CountOtherSeverity(cs[..|cs| - 1]) + (if s != "critical" && s != "high" then 1 else 0)
  }

  /** The ids of the conflicts no strategy has recorded an outcome on, in order. */
  function UnresolvedIds(cs: seq<Conflict>): (ids: seq<string>)
    ensures forall id :: id in ids <==> exists c :: c in cs && c.resolution.None? && c.conflictId == id
  {
    if cs == [] then []
    else
      var last := cs[|cs| - 1];
      assert cs == cs[..|cs| - 1] + [last];
      UnresolvedIds(cs[..|cs| - 1]) + (if last.resolution.None? then [last.conflictId] else [])
  }

  /**
   * `get_alignment_report`: ALIGNED when there is no conflict,
   * NEEDS_RESOLUTION when one is critical, MINOR_CONFLICTS otherwise.
   */
  function AlignmentReportOf(cs: seq<Conflict>): (r: AlignmentReport)
    ensures r.Status() == "ALIGNED" <==> cs == []
    ensures r.Status() == "NEEDS_RESOLUTION" <==> exists i :: 0 <= i < |cs| && cs[i].severity == "critical"
    ensures r.ConflictReport? ==>
              r.conflictsDetected == |cs| && r.medium == CountOtherSeverity(cs)
              && r.critical == CountSeverity(cs, "critical") && r.high == CountSeverity(cs, "high")
              && r.unresolved == UnresolvedIds(cs)
  {
    if cs == [] then AllAligned
    else
      var critical := CountSeverity(cs, "critical");
      var high := CountSeverity(cs, "high");
      SeverityCountsSum(cs);
      ConflictReport(critical > 0, |cs|, critical, high, |cs| - critical - high, UnresolvedIds(cs))
  }

  /** Every conflict is critical, high or something else, so the three counts add up. */
  lemma {:induction false} SeverityCountsSum(cs: seq<Conflict>)
    ensures CountSeverity(cs, "critical") + CountSeverity(cs, "high") + CountOtherSeverity(cs) == |cs|
  {
    if cs != [] {
      SeverityCountsSum(cs[..|cs| - 1]);
    }
  }

  /** Of the four passes only the strategic one is critical, so it alone decides NEEDS_RESOLUTION. */
  lemma DetectedNeedsResolution(outputs: seq<(string, WorkerReport)>, limits: map<string, real>)
    ensures AlignmentReportOf(DetectAll(outputs, limits)).Status() == "NEEDS_RESOLUTION"
        <==> StrategicConflictOf(outputs).Some?
  {
    PassFindings(outputs, limits);
    FindingsShape(BudgetConflictOf(outputs, limits), TimelineConflictOf(outputs),
                  StrategicConflictOf(outputs), ResourceConflictOf(outputs));
  }

  /** The conflict engine's state: the conflicts of the last detection run. */
  class ConflictResolver {
    var conflicts: seq<Conflict>

    constructor ()
      ensures conflicts == []
    {
      conflicts := [];
    }

    /** `detect_conflicts`: runs the four passes and keeps what they found. */
    method DetectConflicts(outputs: seq<(string, WorkerReport)>, limits: map<string, real>)
      returns (found: seq<Conflict>)
      modifies this
      ensures found == DetectAll(outputs, limits) && conflicts == found
    {
      var budget := DetectBudgetConflict(outputs, limits);
      var timeline := DetectTimelineConflict(outputs);
      var strategic := DetectStrategicMisalignment(outputs);
      var resource := DetectResourceContention(outputs);
      found := Listed(budget) + Listed(timeline) + Listed(strategic) + Listed(resource);
      conflicts := found;
    }

    /**
     * `resolve_conflicts(conflicts)`: each conflict whose kind has a strategy
     * records that strategy's outcome, and those not reported resolved are
     * returned, in order, with their count. Python updates the conflict
     * objects it is handed; `resolved` is the caller's list after those
     * updates, and when the caller hands over the detected list itself
     * (as `process_prompt` does) the stored conflicts are the ones updated.
     */
    method ResolveConflicts(cs: seq<Conflict>)
      returns (resolved: seq<Conflict>, unresolved: seq<Conflict>, summary: ResolutionSummary)
      modifies this
      ensures |resolved| == |cs|
      ensures forall i :: 0 <= i < |cs| ==> resolved[i] == Applied(cs[i])
      ensures unresolved == UnresolvedOf(cs)
      ensures summary == ResolutionSummary(ResolutionsOf(cs), |unresolved|)
      ensures conflicts == if cs == old(conflicts) then resolved else old(conflicts)
    {
      var resolutions: seq<(string, Resolution)> := [];
      resolved, unresolved := [], [];
      for i := 0 to |cs|
        invariant |resolved| == i
        invariant conflicts == old(conflicts)
        invariant forall j :: 0 <= j < i ==> resolved[j] == Applied(cs[j])
        invariant unresolved == UnresolvedOf(cs[..i])
        invariant resolutions == ResolutionsOf(cs[..i])
      {
        ResolutionStep(cs, i);
        var c := cs[i];
        var outcome := RunStrategy(c);
        if outcome.Some? {
          var updated := c.(resolution := outcome);
          resolved := resolved + [updated];
          resolutions := resolutions + [(c.conflictId, outcome.value)];
          if !outcome.value.Resolved() {
            unresolved := unresolved + [updated];
          }
        } else {
          resolved := resolved + [c];
          unresolved := unresolved + [c];
        }
      }
      assert cs[..|cs|] == cs;
      summary := ResolutionSummary(resolutions, |unresolved|);
      if cs == conflicts {
        conflicts := resolved;
      }
    }

    /** `get_alignment_report` over the stored conflicts. */
    function Alignment(): (r: AlignmentReport)
      reads this
      ensures r == AlignmentReportOf(conflicts)
      ensures r.Status() == "ALIGNED" <==> conflicts == []
      ensures r.Status() == "NEEDS_RESOLUTION" <==> exists i :: 0 <= i < |conflicts| && conflicts[i].severity == "critical"
    {
      AlignmentReportOf(conflicts)
    }
  }
}
