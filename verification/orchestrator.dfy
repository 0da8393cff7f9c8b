/**
 * The CEO orchestrator: it turns a prompt into a structured goal, splits the
 * goal into one task per department, hands each task to its agent, stores
 * every output in the shared store, runs the conflict engine and the
 * escalation rules, and files the executive roll-up. The agents' own work is
 * a function parameter (`process`); the prompt id (a random uuid in the
 * system), the clock and the date text of entry ids are parameters too.
 */
module Orchestrator {
  import opened Common
  import opened Text
  import opened Table
  import opened BaseAgent
  import opened Executive
  import opened SharedMemory
  import opened Governance
  import opened ConflictResolver

  // ----- Reading the prompt -----

  /** The length of the run of digits that starts at position `i`. */
  function DigitRun(s: string, i: nat): (n: nat)
    requires i <= |s|
    ensures i + n <= |s|
    ensures forall k :: i <= k < i + n ==> IsDigit(s[k])
    ensures i + n == |s| || !IsDigit(s[i + n])
    decreases |s| - i
  {
    if i < |s| && IsDigit(s[i]) then 1 + DigitRun(s, i + 1) else 0
  }

  /**
   * The pattern `(\d+)%` matches at `i`: a run of digits starts there and a
   * `%` follows it. Backtracking to a shorter run never helps, since the
   * character after a shorter run is a digit.
   */
  predicate MatchesAt(s: string, i: nat)
    requires i <= |s|
  {
    var n := DigitRun(s, i);
    n > 0 && i + n < |s| && s[i + n] == '%'
  }

  /** The number the digits of a match at `i` spell. */
  function GroupValue(s: string, i: nat): nat
    requires i <= |s|
  {
    DecimalValue(s[i..i + DigitRun(s, i)])
  }

  /** `re.search(r'(\d+)%', s)` from position `from`: the group of the leftmost match. */
  function SearchPercent(s: string, from: nat): Option<nat>
    requires from <= |s|
    decreases |s| - from
  {
    if from == |s| then None
    else if MatchesAt(s, from) then Some(GroupValue(s, from))
    else SearchPercent(s, from + 1)
  }

  /** A `%` right after a digit at position `k`. */
  predicate PercentAfterDigit(s: string, k: int) {
    0 < k < |s| && s[k] == '%' && IsDigit(s[k - 1])
  }

  /**
   * The search finds something exactly when some `%` follows a digit, and
   * what it finds is the group of the leftmost match.
   */
  lemma {:induction false} SearchPercentFinds(s: string, from: nat)
    requires from <= |s|
    ensures SearchPercent(s, from).Some? <==> exists k :: from < k && PercentAfterDigit(s, k)
    ensures SearchPercent(s, from).Some? ==>
              exists i :: from <= i < |s| && MatchesAt(s, i) && SearchPercent(s, from).value == GroupValue(s, i)
                          && forall j :: from <= j < i ==> !MatchesAt(s, j)
    decreases |s| - from
  {
    if from < |s| {
      if MatchesAt(s, from) {
        assert PercentAfterDigit(s, from + DigitRun(s, from));
      } else {
        SearchPercentFinds(s, from + 1);
        if exists k :: from < k && PercentAfterDigit(s, k) {
          var k :| from < k && PercentAfterDigit(s, k);
          assert k != from + 1;
        }
      }
    }
  }

  /** The structured goal `_parse_prompt` builds. */
  datatype Goal = Goal(
    originalPrompt: string,
    primaryObjective: string,
    targetMetric: string,
    targetValue: real,
    constraint: string,
    affectedDepartments: seq<string>)

  const AffectedDepartments: seq<string> := ["sales", "marketing", "support", "operations", "finance", "hr"]

  /** The constraint phrase found in the lower-cased prompt; the CAC phrases take precedence. */
  function ConstraintOf(lower: string): string {
    if Contains(lower, "without increasing cac") || Contains(lower, "no cac increase") then "No CAC increase allowed"
    else if Contains(lower, "within budget") then "Within existing budget"
    else "None specified"
  }

  /** `_parse_prompt`: the structured goal read from a prompt. */
  function ParsePrompt(prompt: string): Goal {
    var lower := Lower(prompt);
    var retention := Contains(lower, "retention");
    var found := if retention then SearchPercent(prompt, 0) else None;
    var target := if found.Some? then found.value as real / 100.0 else 0.08;
    Goal(prompt, if retention then "improve_retention" else "general", "retention_rate", target,
         ConstraintOf(lower), AffectedDepartments)
  }

  /**
   * A prompt that mentions retention (in any letter case) asks to improve
   * retention, and any other prompt is general with the default target;
   * the constraint follows the phrases present, the CAC phrases first; the
   * departments are always the same six.
   */
  lemma ParsedGoal(prompt: string)
    ensures var g := ParsePrompt(prompt);
            && g.originalPrompt == prompt && g.targetMetric == "retention_rate"
            && g.affectedDepartments == AffectedDepartments
            && (g.primaryObjective == "improve_retention" <==> Contains(Lower(prompt), "retention"))
            && (g.primaryObjective == "improve_retention" || g.primaryObjective == "general")
            && (g.primaryObjective == "general" ==> g.targetValue == 0.08)
    ensures var g := ParsePrompt(prompt);
            && (g.constraint == "No CAC increase allowed" <==>
                  Contains(Lower(prompt), "without increasing cac") || Contains(Lower(prompt), "no cac increase"))
            && (g.constraint == "Within existing budget" <==>
                  g.constraint != "No CAC increase allowed" && Contains(Lower(prompt), "within budget"))
            && (g.constraint == "None specified" <==>
                  g.constraint != "No CAC increase allowed" && g.constraint != "Within existing budget")
  {
  }

  /**
   * The target of a retention prompt is the number before the leftmost
   * `N%`, as a fraction, and 0.08 when no `%` follows a digit.
   */
  lemma ParsedTarget(prompt: string)
    ensures (exists k :: PercentAfterDigit(prompt, k)) && Contains(Lower(prompt), "retention") ==>
              exists i :: 0 <= i < |prompt| && MatchesAt(prompt, i)
                          && ParsePrompt(prompt).targetValue == GroupValue(prompt, i) as real / 100.0
                          && forall j :: 0 <= j < i ==> !MatchesAt(prompt, j)
    ensures !(exists k :: PercentAfterDigit(prompt, k)) ==> ParsePrompt(prompt).targetValue == 0.08
  {
    SearchPercentFinds(prompt, 0);
  }

  // ----- Decomposition -----

  /** A task for one agent; only the sales and marketing tasks carry the retention target. */
  datatype Task = Task(agent: string, taskType: string, description: string, targetRetentionImprovement: Option<real>)

  /** The agents the orchestrator has registered, in registration order. */
  const Registered: seq<string> := ["sales", "marketing", "finance", "operations", "support", "hr"]

  function AgentsOf(tasks: seq<Task>): (agents: seq<string>)
    ensures |agents| == |tasks| && forall i :: 0 <= i < |tasks| ==> agents[i] == tasks[i].agent
  {
    seq(|tasks|, i requires 0 <= i < |tasks| => tasks[i].agent)
  }

  /** `_decompose_goal`: the tasks handed out for a goal. */
  function DecomposeGoal(g: Goal): seq<Task> {
    if g.primaryObjective == "improve_retention" then
      [ Task("sales", "improve_retention", "Develop retention strategies and customer success plans",
             Some(g.targetValue)),
        Task("marketing", "retention_campaign", "Design retention marketing campaigns", Some(g.targetValue)),
        Task("finance", "budget_planning", "Develop budget allocation for retention initiatives", None),
        Task("operations", "process_optimization", "Optimize processes for customer experience", None),
        Task("support", "churn_analysis", "Analyze churn signals and develop intervention strategies", None),
        Task("hr", "hiring_plan", "Develop hiring plan to support retention initiatives", None) ]
    else []
  }

  /** A retention goal gets one task for each registered agent, in registration order; any other goal, none. */
  lemma DecomposedAgents(g: Goal)
    ensures g.primaryObjective == "improve_retention" ==> AgentsOf(DecomposeGoal(g)) == Registered
    ensures g.primaryObjective != "improve_retention" ==> DecomposeGoal(g) == []
  {
  }

  /** Only the sales and marketing tasks carry a retention target, and it is the goal's. */
  lemma DecomposedTargets(g: Goal)
    ensures forall t :: t in DecomposeGoal(g) ==>
              (t.targetRetentionImprovement.Some? <==> t.agent == "sales" || t.agent == "marketing")
              && (t.targetRetentionImprovement.Some? ==> t.targetRetentionImprovement.value == g.targetValue)
  {
  }

  /** The registered agents are six different names. */
  lemma RegisteredDistinct()
    ensures Distinct(Registered)
  {
    forall i, j | 0 <= i < j < |Registered| ensures Differ(Registered, i, j) {
      assert Registered[i][0] != Registered[j][0] || Registered[i][1] != Registered[j][1];
    }
  }

  // ----- Routing -----

  /** The tasks whose agent is registered, in order; the others are skipped. */
  function Routed(tasks: seq<Task>): (r: seq<Task>)
    ensures |r| <= |tasks|
  {
    if tasks == [] then []
    else
      var last := tasks[|tasks| - 1];
      Routed(tasks[..|tasks| - 1]) + (if last.agent in Registered then [last] else [])
  }

  /** A task is routed exactly when it is one of the tasks and its agent is registered. */
  lemma {:induction false} RoutedMembers(tasks: seq<Task>)
    ensures forall t :: t in Routed(tasks) <==> t in tasks && t.agent in Registered
  {
    if tasks != [] {
      var prev := tasks[..|tasks| - 1];
      RoutedMembers(prev);
      assert tasks == prev + [tasks[|tasks| - 1]];
    }
  }

  /** Each routed task paired with its agent's output. */
  function OutputPairs(routed: seq<Task>, process: Task -> AgentOutput): (ps: seq<(string, AgentOutput)>)
    ensures |ps| == |routed|
  {
    if routed == [] then []
    else
      var n := |routed| - 1;
      OutputPairs(routed[..n], process) + [(routed[n].agent, process(routed[n]))]
  }

  /** The `k`-th pair is the `k`-th routed task's agent and that agent's output for it. */
  lemma {:induction false} OutputPairsAt(routed: seq<Task>, process: Task -> AgentOutput, k: nat)
    requires k < |routed|
    ensures OutputPairs(routed, process)[k] == (routed[k].agent, process(routed[k]))
  {
    var n := |routed| - 1;
    if k < n {
      OutputPairsAt(routed[..n], process, k);
    }
  }

  /**
   * The `outputs` dict `_route_tasks` returns: each routed output assigned
   * under its agent's name, so a later task for the same agent overwrites
   * the earlier output where it stands.
   */
  function RouteOutputs(tasks: seq<Task>, process: Task -> AgentOutput): (outputs: seq<(string, AgentOutput)>)
    ensures UniqueKeys(outputs)
  {
    UpsertAll([], OutputPairs(Routed(tasks), process))
  }

  /** The last task in `tasks` for `agent`, if any. */
  function LastTaskFor(tasks: seq<Task>, agent: string): Option<Task> {
    if tasks == [] then None
    else if tasks[|tasks| - 1].agent == agent then Some(tasks[|tasks| - 1])
    else LastTaskFor(tasks[..|tasks| - 1], agent)
  }

  /**
   * An agent has an output exactly when it is registered and some task was
   * addressed to it, and the output is what it made of the last such task.
   */
  lemma RouteOutputsLookup(tasks: seq<Task>, process: Task -> AgentOutput, agent: string)
    ensures Lookup(RouteOutputs(tasks, process), agent) ==
              if agent in Registered && LastTaskFor(tasks, agent).Some?
              then Some(process(LastTaskFor(tasks, agent).value)) else None
  {
    UpsertAllLookup([], OutputPairs(Routed(tasks), process), agent);
    RoutedLastValue(tasks, process, agent);
  }

  lemma {:induction false} RoutedLastValue(tasks: seq<Task>, process: Task -> AgentOutput, agent: string)
    ensures LastValue(OutputPairs(Routed(tasks), process), agent) ==
              if agent in Registered && LastTaskFor(tasks, agent).Some?
              then Some(process(LastTaskFor(tasks, agent).value)) else None
  {
    if tasks != [] {
      var prev := tasks[..|tasks| - 1];
      var last := tasks[|tasks| - 1];
      RoutedLastValue(prev, process, agent);
      var before := OutputPairs(Routed(prev), process);
      if last.agent in Registered {
        assert Routed(tasks) == Routed(prev) + [last];
        OutputPairsSnoc(Routed(prev), last, process);
        LastValueSnoc(before, (last.agent, process(last)), agent);
      } else {
        assert Routed(tasks) == Routed(prev);
      }
    }
  }

  /**
   * Routing a retention goal's tasks gives one output per registered agent,
   * in registration order, each the agent's output for its own task.
   */
  lemma DecomposedRouting(g: Goal, process: Task -> AgentOutput)
    requires g.primaryObjective == "improve_retention"
    ensures var tasks := DecomposeGoal(g);
            RouteOutputs(tasks, process) == OutputPairs(tasks, process)
            && Keys(RouteOutputs(tasks, process)) == Registered
  {
    var tasks := DecomposeGoal(g);
    DecomposedAgents(g);
    RoutedAll(tasks);
    var ps := OutputPairs(tasks, process);
    assert Keys(ps) == Registered by {
      forall k | 0 <= k < |ps| ensures Keys(ps)[k] == Registered[k] {
        OutputPairsAt(tasks, process, k);
        assert AgentsOf(tasks)[k] == tasks[k].agent;
      }
    }
    RegisteredDistinct();
    UpsertAllFresh(ps);
  }

  /** Every task addressed to a registered agent is routed. */
  lemma RoutedAll(tasks: seq<Task>)
    requires forall i :: 0 <= i < |tasks| ==> tasks[i].agent in Registered
    ensures Routed(tasks) == tasks
  {
    RoutedAllPrefix(tasks, |tasks|);
    assert tasks[..|tasks|] == tasks;
  }

  lemma {:induction false} RoutedAllPrefix(tasks: seq<Task>, n: nat)
    requires n <= |tasks|
    requires forall i :: 0 <= i < |tasks| ==> tasks[i].agent in Registered
    ensures Routed(tasks[..n]) == tasks[..n]
  {
    if n > 0 {
      RoutedAllPrefix(tasks, n - 1);
      assert tasks[..n][..n - 1] == tasks[..n - 1];
      assert tasks[..n - 1] + [tasks[n - 1]] == tasks[..n];
    }
  }

  /** The AGENT_OUTPUT entry stored for a routed task, with the counter value its id is made from. */
  function OutputEntry(task: Task, output: AgentOutput, n: nat, now: int, day: string): MemoryEntry {
    MemoryEntry(MemIdText(day, n), AgentOutputEntry, task.agent, AgentOutputContent(output), now, Medium,
                [task.agent, task.taskType], [], None)
  }

  /** The entry `_route_tasks` stores for a task, given the counter value its id is made from. */
  function OutputEntryFn(process: Task -> AgentOutput, now: int, day: string): (Task, nat) -> MemoryEntry {
    (t: Task, n: nat) => OutputEntry(t, process(t), n, now, day)
  }

  /** One entry per routed task, numbered on from `base`. */
  function OutputEntries(routed: seq<Task>, process: Task -> AgentOutput, base: nat, now: int, day: string)
    : (es: seq<MemoryEntry>)
    ensures |es| == |routed|
  {
    Numbered(routed, OutputEntryFn(process, now, day), base)
  }

  /**
   * The entry of the `k`-th routed task is an AGENT_OUTPUT entry from its
   * agent, holding the agent's output and tagged with the agent and the
   * task type, under the id made from counter value `base + k + 1`.
   */
  lemma OutputEntriesAt(routed: seq<Task>, process: Task -> AgentOutput, base: nat, now: int, day: string, k: nat)
    requires k < |routed|
    ensures OutputEntries(routed, process, base, now, day)[k] == OutputEntry(routed[k], process(routed[k]), base + k + 1, now, day)
  {
    NumberedAt(routed, OutputEntryFn(process, now, day), base, k);
  }

  // ----- Escalations -----

  /** The routed dict as `should_escalate` sees it: every key is present, and a missing estimate is None. */
  function EscalationInputOf(o: AgentOutput): EscalationInput {
    EscalationInput(Present(o.confidence),
                    if o.budgetImpact.Some? then Present(o.budgetImpact.value) else Null,
                    false,
                    if o.headcountImpact.Some? then Present(o.headcountImpact.value) else Null,
                    [])
  }

  /** The rule chain can run on the output without comparing a None. */
  predicate Escalatable(o: AgentOutput) {
    EscalationDefined(EscalationInputOf(o))
  }

  /**
   * A routed output escalates exactly on low confidence, a budget above
   * $500K or more than 20 hires: it has no policy flag and no department
   * list, so the other two rules never fire.
   */
  lemma RoutedEscalation(o: AgentOutput)
    requires Escalatable(o)
    ensures ShouldEscalate(EscalationInputOf(o)).0 <==>
              o.confidence < 0.6 || (o.budgetImpact.Some? && o.budgetImpact.value > 500000.0)
              || (o.headcountImpact.Some? && o.headcountImpact.value > 20)
    ensures ShouldEscalate(EscalationInputOf(o)).1 in
              {"", LowConfidence.Reason(), HighBudget.Reason(), HighHeadcount.Reason()}
  {
  }

  /** The escalation filed for one agent's output. */
  function EscalationFor(name: string, o: AgentOutput): Escalation
    requires Escalatable(o)
  {
    Escalation(name, ShouldEscalate(EscalationInputOf(o)).1, o.budgetImpact, o.headcountImpact)
  }

  /** The escalations of `_check_governance`: one per escalating output, in table order. */
  function EscalationsOf(outputs: seq<(string, AgentOutput)>): (es: seq<Escalation>)
    requires forall i :: 0 <= i < |outputs| ==> Escalatable(outputs[i].1)
    ensures |es| <= |outputs|
  {
    if outputs == [] then []
    else
      var prev := outputs[..|outputs| - 1];
      var last := outputs[|outputs| - 1];
      assert Escalatable(last.1);
      EscalationsOf(prev)
      + (if ShouldEscalate(EscalationInputOf(last.1)).0 then [EscalationFor(last.0, last.1)] else [])
  }

  /** Output `i` escalates and `e` is the escalation filed for it. */
  predicate EscalatedAt(outputs: seq<(string, AgentOutput)>, i: int, e: Escalation) {
    0 <= i < |outputs| && Escalatable(outputs[i].1) && ShouldEscalate(EscalationInputOf(outputs[i].1)).0
    && e == EscalationFor(outputs[i].0, outputs[i].1)
  }

  /** An escalation is filed for an output exactly when the rule chain says so, carrying its reason. */
  lemma {:induction false} EscalationsOfMembers(outputs: seq<(string, AgentOutput)>)
    requires forall i :: 0 <= i < |outputs| ==> Escalatable(outputs[i].1)
    ensures forall e :: e in EscalationsOf(outputs) <==> exists i :: EscalatedAt(outputs, i, e)
  {
    if outputs != [] {
      var n := |outputs| - 1;
      var prev := outputs[..n];
      var last := outputs[n];
      var tail := if ShouldEscalate(EscalationInputOf(last.1)).0 then [EscalationFor(last.0, last.1)] else [];
      assert EscalationsOf(outputs) == EscalationsOf(prev) + tail;
      EscalationsOfMembers(prev);
      forall e ensures e in EscalationsOf(outputs) <==> exists i :: EscalatedAt(outputs, i, e) {
        if e in EscalationsOf(prev) {
          var i :| EscalatedAt(prev, i, e);
          assert EscalatedAt(outputs, i, e);
        } else if e in tail {
          assert EscalatedAt(outputs, n, e);
        }
        if exists i :: EscalatedAt(outputs, i, e) {
          var i :| EscalatedAt(outputs, i, e);
          if i < n {
            assert EscalatedAt(prev, i, e);
          } else {
            assert e in tail;
          }
        }
      }
    }
  }

  // ----- The default context -----

  /** The retention goal the orchestrator starts from, due 90 days after `now`. */
  function RetentionGoal(now: int): CompanyGoal {
    CompanyGoal("GOAL-001", "Improve customer retention rate", 0.92, 0.84, "percentage", now + 90 * 86400,
                "ceo", "active", ["sales", "marketing", "support", "operations"],
                [KeyResult("Reduce churn rate", 0.08, 0.16), KeyResult("Improve NPS", 45.0, 32.0)])
  }

  /** Python's `str.capitalize()` on ASCII text. */
  function Capitalize(s: string): string {
    if s == [] then [] else [UpperChar(s[0])] + Lower(s[1..])
  }

  const DefaultBudgets: seq<(string, real)> := [
    ("marketing", 8000000.0), ("sales", 5000000.0), ("operations", 12000000.0),
    ("support", 6000000.0), ("hr", 2000000.0), ("technology", 10000000.0)]

  /** A department's soft budget constraint, owned by the CFO and half spent. */
  function BudgetConstraint(dept: string, budget: real): (c: Constraint)
    ensures c.id == "BUDGET-" + dept && c.category == "budget" && !c.hardLimit
    ensures c.limitValue == budget && c.currentUsage == budget * 0.5
  {
    Constraint("BUDGET-" + dept, "budget", Capitalize(dept) + " department budget", budget, budget * 0.5,
               "USD", false, "cfo")
  }

  /** The default budget constraints, each as the `(id, constraint)` pair the table stores. */
  function DefaultConstraintPairs(): (ps: seq<(string, Constraint)>)
    ensures |ps| == |DefaultBudgets|
    ensures forall i :: 0 <= i < |ps| ==> ps[i] == (ps[i].1.id, ps[i].1)
                                            && ps[i].1 == BudgetConstraint(DefaultBudgets[i].0, DefaultBudgets[i].1)
  {
    seq(|DefaultBudgets|, i requires 0 <= i < |DefaultBudgets| =>
      var c := BudgetConstraint(DefaultBudgets[i].0, DefaultBudgets[i].1);
      (c.id, c))
  }

  /** What the callbacks hear while the default context is filled in with the counter starting at `n`. */
  function DefaultContextNotifications(cbs: seq<Callback>, n: nat, now: int, day: string): seq<(string, string, bool)> {
    Notifications(cbs, GoalEntryOf(RetentionGoal(now), n + 1, now, day))
    + NotificationsOf(cbs, ConstraintEntries(DefaultConstraintPairs(), n + 1, now, day))
  }

  /** The entry `add_constraint` stores for a pair, given the counter value its id is made from. */
  function ConstraintEntryFn(now: int, day: string): ((string, Constraint), nat) -> MemoryEntry {
    (p: (string, Constraint), n: nat) => ConstraintEntryOf(p.1, n, now, day)
  }

  /** One constraint entry per pair, numbered on from `base`. */
  function ConstraintEntries(ps: seq<(string, Constraint)>, base: nat, now: int, day: string): (es: seq<MemoryEntry>)
    ensures |es| == |ps|
  {
    Numbered(ps, ConstraintEntryFn(now, day), base)
  }

  /** The entries of the first `i + 1` pairs are those of the first `i`, then the entry of pair `i`. */
  lemma ConstraintEntriesStep(ps: seq<(string, Constraint)>, i: nat, base: nat, now: int, day: string)
    requires i < |ps|
    ensures ConstraintEntries(ps[..i + 1], base, now, day)
            == ConstraintEntries(ps[..i], base, now, day) + [ConstraintEntryOf(ps[i].1, base + i + 1, now, day)]
  {
    NumberedStep(ps, ConstraintEntryFn(now, day), base, i);
  }

  /** On an empty store the default constraints land as they are: one per department, in order. */
  lemma DefaultConstraintsOnEmptyStore()
    ensures UpsertAll([], DefaultConstraintPairs()) == DefaultConstraintPairs()
  {
    DefaultKeysDistinct();
    UpsertAllFresh(DefaultConstraintPairs());
  }

  /** Every default constraint is of category "budget", so the budget query returns all of them, in order. */
  lemma DefaultConstraintsAllBudget()
    ensures InCategory(Values(DefaultConstraintPairs()), "budget") == Values(DefaultConstraintPairs())
  {
    InCategoryAll(Values(DefaultConstraintPairs()));
  }

  /** The default constraints are soft, so no usage update can ever raise an alert for them. */
  lemma DefaultConstraintsNeverViolated()
    ensures forall c, u :: c in Values(DefaultConstraintPairs()) ==> !Violates(c, u)
  {
    DefaultConstraintsSoft();
  }

  /** The default constraint ids are six different texts. */
  lemma DefaultKeysDistinct()
    ensures Distinct(Keys(DefaultConstraintPairs()))
  {
    var ps := DefaultConstraintPairs();
    forall i, j | 0 <= i < j < |ps| ensures Differ(Keys(ps), i, j) {
      DepartmentsDiffer(i, j);
      var a := DefaultBudgets[i].0;
      var b := DefaultBudgets[j].0;
      if "BUDGET-" + a == "BUDGET-" + b {
        PrefixInjective("BUDGET-", a, b);
      }
    }
  }

  /** The default departments are six different names. */
  lemma DepartmentsDiffer(i: nat, j: nat)
    requires i < j < |DefaultBudgets|
    ensures DefaultBudgets[i].0 != DefaultBudgets[j].0
  {
    var a := DefaultBudgets[i].0;
    var b := DefaultBudgets[j].0;
    assert a[0] != b[0] || a[1] != b[1];
  }

  /** No default constraint is a hard limit. */
  lemma DefaultConstraintsSoft()
    ensures forall c :: c in Values(DefaultConstraintPairs()) ==> !c.hardLimit
  {
    var vs := Values(DefaultConstraintPairs());
    forall c | c in vs ensures !c.hardLimit {
      var i :| 0 <= i < |vs| && vs[i] == c;
    }
  }

  lemma {:induction false} InCategoryAll(cs: seq<Constraint>)
    requires forall i :: 0 <= i < |cs| ==> cs[i].category == "budget"
    ensures InCategory(cs, "budget") == cs
  {
    if cs != [] {
      InCategoryAll(cs[..|cs| - 1]);
      assert cs[..|cs| - 1] + [cs[|cs| - 1]] == cs;
    }
  }

  /** `{c.id: c.limit_value for c in constraints}`: a later constraint with the same id wins. */
  function LimitsOf(cs: seq<Constraint>): (m: map<string, real>)
    ensures forall k :: k in m <==> exists c :: c in cs && c.id == k
  {
    if cs == [] then map[]
    else
      var last := cs[|cs| - 1];
      assert cs == cs[..|cs| - 1] + [last];
      LimitsOf(cs[..|cs| - 1])[last.id := last.limitValue]
  }

  /**
   * The budget limits are keyed by constraint id ("BUDGET-sales"), while the
   * budget pass looks them up by department ("sales"): no department of the
   * default context finds its limit there.
   */
  lemma BudgetLimitsKeyedByConstraintId()
    ensures forall d :: d in Registered ==> d !in LimitsOf(Values(DefaultConstraintPairs()))
  {
    var ps := DefaultConstraintPairs();
    forall d | d in Registered ensures d !in LimitsOf(Values(ps)) {
      forall c: Constraint | c in Values(ps) ensures c.id != d {
        var i :| 0 <= i < |ps| && Values(ps)[i] == c;
        assert c.id[0] == 'B';
      }
    }
  }

  /** A report that carries none of the sections the detection passes read. */
  function BareReports(outputs: seq<(string, AgentOutput)>): (rs: seq<(string, WorkerReport)>)
    ensures |rs| == |outputs|
    ensures forall i :: 0 <= i < |rs| ==> rs[i] == (outputs[i].0, WorkerReport(None, None, None, None))
  {
    seq(|outputs|, i requires 0 <= i < |outputs| => (outputs[i].0, WorkerReport(None, None, None, None)))
  }

  /** The executive summary entry, with the counter value its id is made from. */
  function ExecutiveEntry(out: ExecutiveOutput, promptId: string, n: nat, now: int, day: string): MemoryEntry {
    MemoryEntry(MemIdText(day, n), AgentOutputEntry, "ceo_orchestrator", ExecutiveContent(out), now, High,
                ["executive_summary", promptId], [], None)
  }

  /**
   * The executive output for a goal and its tasks: the roll-up over the
   * routed outputs and their escalations, always ALIGNED, since the routed
   * dicts carry none of the sections the conflict passes read.
   */
  function ExecutiveOf(goal: Goal, tasks: seq<Task>, promptId: string, process: Task -> AgentOutput): ExecutiveOutput
    requires forall t :: t in tasks ==> Escalatable(process(t))
  {
    var outputs := RouteOutputs(tasks, process);
    RouteOutputsEscalatable(tasks, process);
    ExecutiveOutputOf(promptId, goal.targetValue, goal.constraint, outputs, "ALIGNED", EscalationsOf(outputs))
  }

  /** Every routed output is some task's output, so an assumption about the tasks' outputs carries over. */
  lemma RouteOutputsEscalatable(tasks: seq<Task>, process: Task -> AgentOutput)
    requires forall t :: t in tasks ==> Escalatable(process(t))
    ensures forall i :: 0 <= i < |RouteOutputs(tasks, process)| ==> Escalatable(RouteOutputs(tasks, process)[i].1)
  {
    var outputs := RouteOutputs(tasks, process);
    forall i | 0 <= i < |outputs| ensures Escalatable(outputs[i].1) {
      LookupStored(outputs, i);
      RouteOutputsLookup(tasks, process, outputs[i].0);
      var last := LastTaskFor(tasks, outputs[i].0);
      LastTaskIn(tasks, outputs[i].0);
    }
  }

  lemma {:induction false} LastTaskIn(tasks: seq<Task>, agent: string)
    ensures LastTaskFor(tasks, agent).Some? ==> LastTaskFor(tasks, agent).value in tasks
  {
    if tasks != [] {
      LastTaskIn(tasks[..|tasks| - 1], agent);
    }
  }

  /** The orchestrator: the shared store it writes to and its conflict engine. */
  class Orchestrator {
    const memory: SharedMemory
    const resolver: ConflictResolver

    /** Takes the shared store and fills in the default goal and budget constraints. */
    constructor (memory: SharedMemory, now: int, day: string)
      requires memory.Valid() && |day| == 8
      modifies memory
      ensures this.memory == memory && fresh(resolver) && resolver.conflicts == []
      ensures memory.Valid()
      ensures memory.goals == Upsert(old(memory.goals), "GOAL-001", RetentionGoal(now))
      ensures memory.constraints == UpsertAll(old(memory.constraints), DefaultConstraintPairs())
      ensures memory.callbacks == old(memory.callbacks)
      ensures memory.deliveries == old(memory.deliveries) + DefaultContextNotifications(memory.callbacks, old(memory.counter), now, day)
    {
      this.memory := memory;
      resolver := new ConflictResolver();
      new;
      InitializeDefaultContext(now, day);
    }

    /**
     * `_initialize_default_context`: the retention goal, then one soft
     * budget constraint per department in order, each with its entry.
     */
    method InitializeDefaultContext(now: int, day: string)
      requires memory.Valid() && |day| == 8
      modifies memory
      ensures memory.Valid()
      ensures memory.goals == Upsert(old(memory.goals), "GOAL-001", RetentionGoal(now))
      ensures memory.constraints == UpsertAll(old(memory.constraints), DefaultConstraintPairs())
      ensures memory.counter == old(memory.counter) + 1 + |DefaultBudgets|
      ensures memory.entries == old(memory.entries) + [GoalEntryOf(RetentionGoal(now), old(memory.counter) + 1, now, day)]
                                + ConstraintEntries(DefaultConstraintPairs(), old(memory.counter) + 1, now, day)
      ensures memory.callbacks == old(memory.callbacks)
      ensures memory.deliveries == old(memory.deliveries) + DefaultContextNotifications(memory.callbacks, old(memory.counter), now, day)
    {
      ghost var d0 := memory.deliveries;
      memory.AddGoal(RetentionGoal(now), now, day);
      AddDefaultBudgets(now, day);
      AppendAssoc(d0, Notifications(memory.callbacks, GoalEntryOf(RetentionGoal(now), old(memory.counter) + 1, now, day)),
                  NotificationsOf(memory.callbacks, ConstraintEntries(DefaultConstraintPairs(), old(memory.counter) + 1, now, day)));
    }

    /** The default budgets in order, each added with `add_constraint`. */
    method AddDefaultBudgets(now: int, day: string)
      requires memory.Valid() && |day| == 8
      modifies memory
      ensures memory.Valid()
      ensures memory.constraints == UpsertAll(old(memory.constraints), DefaultConstraintPairs())
      ensures memory.counter == old(memory.counter) + |DefaultBudgets|
      ensures memory.entries == old(memory.entries) + ConstraintEntries(DefaultConstraintPairs(), old(memory.counter), now, day)
      ensures memory.goals == old(memory.goals) && memory.callbacks == old(memory.callbacks)
      ensures memory.deliveries == old(memory.deliveries)
                                   + NotificationsOf(memory.callbacks, ConstraintEntries(DefaultConstraintPairs(), old(memory.counter), now, day))
    {
      ghost var base := memory.counter;
      ghost var start := memory.entries;
      ghost var t0 := memory.constraints;
      ghost var d0 := memory.deliveries;
      ghost var added: seq<MemoryEntry> := [];
      var ps := DefaultConstraintPairs();
      for i := 0 to |ps|
        invariant memory.Valid()
        invariant memory.goals == old(memory.goals)
        invariant memory.constraints == UpsertAll(t0, ps[..i])
        invariant memory.counter == base + i
        invariant memory.entries == start + ConstraintEntries(ps[..i], base, now, day)
        invariant memory.callbacks == old(memory.callbacks)
        invariant memory.entries == start + added
        invariant memory.deliveries == d0 + NotificationsOf(memory.callbacks, added)
      {
        ghost var e := ConstraintEntryOf(ps[i].1, base + i + 1, now, day);
        AddBudget(ps, i, t0, start, base, now, day);
        NotificationsSnocStep(memory.callbacks, d0, memory.deliveries, added, e);
        AppendAssoc(start, added, [e]);
        added := added + [e];
      }
      TakeAll(ps);
      PrefixInjective(start, added, ConstraintEntries(ps, base, now, day));
    }

    /** Step `i` of the default budgets: adds constraint `i` and its entry. */
    method AddBudget(ps: seq<(string, Constraint)>, i: nat, ghost t0: seq<(string, Constraint)>,
                     ghost start: seq<MemoryEntry>, ghost base: nat, now: int, day: string)
      requires i < |ps| && ps[i].0 == ps[i].1.id && UniqueKeys(t0)
      requires memory.Valid() && |day| == 8
      requires memory.constraints == UpsertAll(t0, ps[..i])
      requires memory.counter == base + i
      requires memory.entries == start + ConstraintEntries(ps[..i], base, now, day)
      modifies memory
      ensures memory.Valid()
      ensures memory.constraints == UpsertAll(t0, ps[..i + 1])
      ensures memory.counter == base + i + 1
      ensures memory.entries == start + ConstraintEntries(ps[..i + 1], base, now, day)
      ensures memory.entries == old(memory.entries) + [ConstraintEntryOf(ps[i].1, base + i + 1, now, day)]
      ensures memory.goals == old(memory.goals) && memory.callbacks == old(memory.callbacks)
      ensures memory.deliveries == old(memory.deliveries)
                                   + Notifications(memory.callbacks, ConstraintEntryOf(ps[i].1, base + i + 1, now, day))
    {
      var c := ps[i].1;
      memory.AddConstraint(c, now, day);
      UpsertAllStep(t0, ps, i);
      ConstraintEntriesStep(ps, i, base, now, day);
      AppendAssoc(start, ConstraintEntries(ps[..i], base, now, day), [ConstraintEntryOf(c, base + i + 1, now, day)]);
    }

    /**
     * `_route_tasks`: hands each task addressed to a registered agent to
     * that agent, keeps the output under the agent's name and stores one
     * MEDIUM AGENT_OUTPUT entry per routed task, tagged with the agent and
     * the task type; tasks for unknown agents are skipped.
     */
    method RouteTasks(tasks: seq<Task>, process: Task -> AgentOutput, now: int, day: string)
      returns (outputs: seq<(string, AgentOutput)>)
      requires memory.Valid() && |day| == 8
      modifies memory
      ensures memory.Valid()
      ensures outputs == RouteOutputs(tasks, process)
      ensures memory.counter == old(memory.counter) + |Routed(tasks)|
      ensures memory.entries == old(memory.entries) + OutputEntries(Routed(tasks), process, old(memory.counter), now, day)
      ensures memory.goals == old(memory.goals) && memory.constraints == old(memory.constraints)
      ensures memory.callbacks == old(memory.callbacks)
      ensures memory.deliveries == old(memory.deliveries)
                                   + NotificationsOf(memory.callbacks, OutputEntries(Routed(tasks), process, old(memory.counter), now, day))
    {
      outputs := [];
      ghost var base := memory.counter;
      ghost var start := memory.entries;
      ghost var d0 := memory.deliveries;
      ghost var added: seq<MemoryEntry> := [];
      assert tasks[..0] == [];
      for i := 0 to |tasks|
        invariant memory.Valid()
        invariant outputs == RouteOutputs(tasks[..i], process)
        invariant memory.counter == base + |Routed(tasks[..i])|
        invariant memory.entries == start + OutputEntries(Routed(tasks[..i]), process, base, now, day)
        invariant memory.goals == old(memory.goals) && memory.constraints == old(memory.constraints)
        invariant memory.callbacks == old(memory.callbacks)
        invariant memory.entries == start + added
        invariant memory.deliveries == d0 + NotificationsOf(memory.callbacks, added)
      {
        var task := tasks[i];
        if task.agent in Registered {
          RouteOutputsStep(tasks, i, process);
          outputs := Upsert(outputs, task.agent, process(task));
        } else {
          RouteOutputsSkip(tasks, i, process);
        }
        ghost var stored := LogOne(tasks, i, process, start, base, now, day);
        NotificationsConcatStep(memory.callbacks, d0, memory.deliveries, added, stored);
        AppendAssoc(start, added, stored);
        added := added + stored;
      }
      TakeAll(tasks);
      PrefixInjective(start, added, OutputEntries(Routed(tasks), process, base, now, day));
    }

    /** The store side of step `i` of `_route_tasks`: a task for a registered agent gets its entry. */
    method LogOne(tasks: seq<Task>, i: nat, process: Task -> AgentOutput,
                  ghost start: seq<MemoryEntry>, ghost base: nat, now: int, day: string)
      returns (ghost stored: seq<MemoryEntry>)
      requires i < |tasks|
      requires memory.Valid() && |day| == 8
      requires memory.counter == base + |Routed(tasks[..i])|
      requires memory.entries == start + OutputEntries(Routed(tasks[..i]), process, base, now, day)
      modifies memory
      ensures memory.Valid()
      ensures memory.counter == base + |Routed(tasks[..i + 1])|
      ensures memory.entries == start + OutputEntries(Routed(tasks[..i + 1]), process, base, now, day)
      ensures memory.goals == old(memory.goals) && memory.constraints == old(memory.constraints)
      ensures memory.callbacks == old(memory.callbacks)
      ensures memory.entries == old(memory.entries) + stored
      ensures memory.deliveries == old(memory.deliveries) + NotificationsOf(memory.callbacks, stored)
    {
      RoutedStep(tasks, i);
      var task := tasks[i];
      if task.agent in Registered {
        var routed := Routed(tasks[..i]);
        OutputEntriesSnoc(routed, task, process, base, now, day);
        StoreOutput(task, process(task), now, day);
        AppendAssoc(start, OutputEntries(routed, process, base, now, day),
                    [OutputEntry(task, process(task), base + |routed| + 1, now, day)]);
        stored := [OutputEntry(task, process(task), base + |routed| + 1, now, day)];
        NotificationsOfSingle(memory.callbacks, stored[0]);
      } else {
        assert Routed(tasks[..i]) + [] == Routed(tasks[..i]);
        stored := [];
        AppendEmpty(memory.entries);
        AppendEmpty(memory.deliveries);
      }
    }

    /** Stores one routed output as a MEDIUM AGENT_OUTPUT entry tagged with the agent and the task type. */
    method StoreOutput(task: Task, output: AgentOutput, now: int, day: string)
      requires memory.Valid() && |day| == 8
      modifies memory
      ensures memory.Valid()
      ensures memory.counter == old(memory.counter) + 1
      ensures memory.entries == old(memory.entries) + [OutputEntry(task, output, memory.counter, now, day)]
      ensures memory.goals == old(memory.goals) && memory.constraints == old(memory.constraints)
      ensures memory.callbacks == old(memory.callbacks)
      ensures memory.deliveries == old(memory.deliveries)
                                   + Notifications(memory.callbacks, OutputEntry(task, output, memory.counter, now, day))
    {
      var _ := memory.Store(AgentOutputEntry, task.agent, AgentOutputContent(output), Medium,
                            Some([task.agent, task.taskType]), None, None, now, day);
    }

    /**
     * `_check_governance`: one escalation per output the rule chain
     * escalates, in table order, with the rule's reason and the output's
     * budget and headcount estimates.
     */
    method CheckGovernance(outputs: seq<(string, AgentOutput)>) returns (escalations: seq<Escalation>)
      requires forall i :: 0 <= i < |outputs| ==> Escalatable(outputs[i].1)
      ensures escalations == EscalationsOf(outputs)
    {
      escalations := [];
      for i := 0 to |outputs|
        invariant escalations == EscalationsOf(outputs[..i])
      {
        assert outputs[..i + 1][..i] == outputs[..i];
        var name := outputs[i].0;
        var output := outputs[i].1;
        var decision := ShouldEscalate(EscalationInputOf(output));
        if decision.0 {
          escalations := escalations + [Escalation(name, decision.1, output.budgetImpact, output.headcountImpact)];
        }
      }
      assert outputs[..|outputs|] == outputs;
    }

    /**
     * `process_prompt`: parses the prompt, routes the tasks, runs conflict
     * detection and resolution on the routed dicts, collects the
     * escalations, builds the executive output and stores it as one HIGH
     * entry tagged with the prompt id. The conflict engine ends with no
     * conflicts, so the output is ALIGNED.
     */
    method ProcessPrompt(prompt: string, promptId: string, process: Task -> AgentOutput, now: int, day: string)
      returns (out: ExecutiveOutput)
      requires memory.Valid() && |day| == 8
      requires forall t :: t in DecomposeGoal(ParsePrompt(prompt)) ==> Escalatable(process(t))
      modifies memory, resolver
      ensures memory.Valid()
      ensures out == ExecutiveOf(ParsePrompt(prompt), DecomposeGoal(ParsePrompt(prompt)), promptId, process)
      ensures resolver.conflicts == []
      ensures var routed := Routed(DecomposeGoal(ParsePrompt(prompt)));
              && memory.counter == old(memory.counter) + |routed| + 1
              && memory.entries == old(memory.entries) + OutputEntries(routed, process, old(memory.counter), now, day)
                                   + [ExecutiveEntry(out, promptId, memory.counter, now, day)]
              && memory.deliveries == old(memory.deliveries)
                                      + NotificationsOf(memory.callbacks, OutputEntries(routed, process, old(memory.counter), now, day))
                                      + Notifications(memory.callbacks, ExecutiveEntry(out, promptId, memory.counter, now, day))
      ensures memory.goals == old(memory.goals) && memory.constraints == old(memory.constraints)
      ensures memory.callbacks == old(memory.callbacks)
    {
      var goal := ParsePrompt(prompt);
      var tasks := DecomposeGoal(goal);
      out := Execute(goal, tasks, promptId, process, now, day);
    }

    /**
     * The rest of `process_prompt` once the goal is parsed and decomposed:
     * routing, conflict detection and resolution, governance, and the
     * executive output with its entry.
     */
    method Execute(goal: Goal, tasks: seq<Task>, promptId: string, process: Task -> AgentOutput, now: int, day: string)
      returns (out: ExecutiveOutput)
      requires memory.Valid() && |day| == 8
      requires forall t :: t in tasks ==> Escalatable(process(t))
      modifies memory, resolver
      ensures memory.Valid()
      ensures out == ExecutiveOf(goal, tasks, promptId, process)
      ensures resolver.conflicts == []
      ensures memory.counter == old(memory.counter) + |Routed(tasks)| + 1
      ensures memory.entries == old(memory.entries) + OutputEntries(Routed(tasks), process, old(memory.counter), now, day)
                                + [ExecutiveEntry(out, promptId, memory.counter, now, day)]
      ensures memory.goals == old(memory.goals) && memory.constraints == old(memory.constraints)
      ensures memory.callbacks == old(memory.callbacks)
      ensures memory.deliveries == old(memory.deliveries)
                                   + NotificationsOf(memory.callbacks, OutputEntries(Routed(tasks), process, old(memory.counter), now, day))
                                   + Notifications(memory.callbacks, ExecutiveEntry(out, promptId, memory.counter, now, day))
    {
      var outputs := RouteTasks(tasks, process, now, day);
      var status := Align(outputs);
      RouteOutputsEscalatable(tasks, process);
      var escalations := CheckGovernance(outputs);
      out := ExecutiveOutputOf(promptId, goal.targetValue, goal.constraint, outputs, status, escalations);
      StoreExecutive(out, promptId, now, day);
    }

    /**
     * The conflict step of `process_prompt`: detection over the routed dicts
     * with the budget limits from the store, then resolution. The routed
     * dicts carry no budget, timeline, strategy or resource sections, so
     * nothing is found and the report is ALIGNED.
     */
    method Align(outputs: seq<(string, AgentOutput)>) returns (status: string)
      modifies resolver
      ensures resolver.conflicts == [] && status == "ALIGNED"
    {
      var limits := LimitsOf(memory.ConstraintsByCategory("budget"));
      var reports := BareReports(outputs);
      var found := resolver.DetectConflicts(reports, limits);
      NoSectionsNoConflicts(reports, limits);
      var _, _, _ := resolver.ResolveConflicts(found);
      status := resolver.Alignment().Status();
    }

    /** Stores the executive output as one HIGH entry tagged with the prompt id. */
    method StoreExecutive(out: ExecutiveOutput, promptId: string, now: int, day: string)
      requires memory.Valid() && |day| == 8
      modifies memory
      ensures memory.Valid()
      ensures memory.counter == old(memory.counter) + 1
      ensures memory.entries == old(memory.entries) + [ExecutiveEntry(out, promptId, memory.counter, now, day)]
      ensures memory.goals == old(memory.goals) && memory.constraints == old(memory.constraints)
      ensures memory.callbacks == old(memory.callbacks)
      ensures memory.deliveries == old(memory.deliveries)
                                   + Notifications(memory.callbacks, ExecutiveEntry(out, promptId, memory.counter, now, day))
    {
      var _ := memory.Store(AgentOutputEntry, "ceo_orchestrator", ExecutiveContent(out), High,
                            Some(["executive_summary", promptId]), None, None, now, day);
    }
  }

  /** Deliveries that follow `d0` with the notifications of `earlier` and then of `e` follow it with those of `earlier + [e]`. */
  lemma NotificationsSnocStep(cbs: seq<Callback>, d0: seq<(string, string, bool)>, d: seq<(string, string, bool)>,
                              earlier: seq<MemoryEntry>, e: MemoryEntry)
    requires d == d0 + NotificationsOf(cbs, earlier) + Notifications(cbs, e)
    ensures d == d0 + NotificationsOf(cbs, earlier + [e])
  {
    NotificationsOfSnoc(cbs, earlier, e);
    AppendAssoc(d0, NotificationsOf(cbs, earlier), Notifications(cbs, e));
  }

  /** Deliveries that follow `d0` with the notifications of `earlier` and then of `later` follow it with those of `earlier + later`. */
  lemma NotificationsConcatStep(cbs: seq<Callback>, d0: seq<(string, string, bool)>, d: seq<(string, string, bool)>,
                                earlier: seq<MemoryEntry>, later: seq<MemoryEntry>)
    requires d == d0 + NotificationsOf(cbs, earlier) + NotificationsOf(cbs, later)
    ensures d == d0 + NotificationsOf(cbs, earlier + later)
  {
    NotificationsOfConcat(cbs, earlier, later);
    AppendAssoc(d0, NotificationsOf(cbs, earlier), NotificationsOf(cbs, later));
  }

  /** Task `i` is routed after the earlier ones exactly when its agent is registered. */
  lemma RoutedStep(tasks: seq<Task>, i: nat)
    requires i < |tasks|
    ensures Routed(tasks[..i + 1]) == Routed(tasks[..i]) + (if tasks[i].agent in Registered then [tasks[i]] else [])
  {
    PrefixStep(tasks, i);
  }

  /** Routing task `i` assigns its output under its agent's name. */
  lemma RouteOutputsStep(tasks: seq<Task>, i: nat, process: Task -> AgentOutput)
    requires i < |tasks| && tasks[i].agent in Registered
    ensures RouteOutputs(tasks[..i + 1], process) == Upsert(RouteOutputs(tasks[..i], process), tasks[i].agent, process(tasks[i]))
  {
    RoutedStep(tasks, i);
    OutputPairsSnoc(Routed(tasks[..i]), tasks[i], process);
  }

  /** A task for an unknown agent changes nothing. */
  lemma RouteOutputsSkip(tasks: seq<Task>, i: nat, process: Task -> AgentOutput)
    requires i < |tasks| && tasks[i].agent !in Registered
    ensures Routed(tasks[..i + 1]) == Routed(tasks[..i])
    ensures RouteOutputs(tasks[..i + 1], process) == RouteOutputs(tasks[..i], process)
  {
    RoutedStep(tasks, i);
    assert Routed(tasks[..i]) + [] == Routed(tasks[..i]);
  }

  /** One more routed task adds its agent and output as the last pair. */
  lemma OutputPairsSnoc(routed: seq<Task>, task: Task, process: Task -> AgentOutput)
    ensures OutputPairs(routed + [task], process) == OutputPairs(routed, process) + [(task.agent, process(task))]
  {
    SnocPrefix(routed, task);
  }

  /** One more routed task adds its entry, numbered after the others. */
  lemma OutputEntriesSnoc(routed: seq<Task>, task: Task, process: Task -> AgentOutput, base: nat, now: int, day: string)
    ensures OutputEntries(routed + [task], process, base, now, day)
            == OutputEntries(routed, process, base, now, day)
               + [OutputEntry(task, process(task), base + |routed| + 1, now, day)]
  {
    NumberedSnoc(routed, task, OutputEntryFn(process, now, day), base);
  }
}
