/**
 * The executive roll-up the orchestrator builds from the agents' outputs:
 * total and per-department budget and headcount, the three strategic
 * options scaled from the totals, one plan per department, and the risks
 * without repetitions. The agents' outputs arrive as an insertion-ordered
 * table from agent name to `AgentOutput`.
 */
module Executive {
  import opened Common
  import opened Table
  import opened BaseAgent

  /** `o.get("budget_impact", 0) or 0`: an absent budget impact counts as zero. */
  function BudgetOf(o: AgentOutput): real {
    o.budgetImpact.GetOr(0.0)
  }

  /** `o.get("headcount_impact", 0) or 0`: an absent headcount impact counts as zero. */
  function HeadcountOf(o: AgentOutput): int {
    o.headcountImpact.GetOr(0)
  }

  /** The sum of the budget impacts over the outputs, in table order. */
  function TotalBudget(outputs: seq<(string, AgentOutput)>): real {
    if outputs == [] then 0.0
    else TotalBudget(outputs[..|outputs| - 1]) + BudgetOf(outputs[|outputs| - 1].1)
  }

  /** The sum of the headcount impacts over the outputs, in table order. */
  function TotalHeadcount(outputs: seq<(string, AgentOutput)>): int {
    if outputs == [] then 0
    else TotalHeadcount(outputs[..|outputs| - 1]) + HeadcountOf(outputs[|outputs| - 1].1)
  }

  /** `budget_impact["by_department"]`: each agent's budget impact, absent ones as zero. */
  function BudgetByDepartment(outputs: seq<(string, AgentOutput)>): (t: seq<(string, real)>)
    ensures Keys(t) == Keys(outputs)
    ensures forall i :: 0 <= i < |t| ==> t[i].1 == BudgetOf(outputs[i].1)
  {
    seq(|outputs|, i requires 0 <= i < |outputs| => (outputs[i].0, BudgetOf(outputs[i].1)))
  }

  /** `headcount_impact["by_department"]`: each agent's headcount impact, absent ones as zero. */
  function HeadcountByDepartment(outputs: seq<(string, AgentOutput)>): (t: seq<(string, int)>)
    ensures Keys(t) == Keys(outputs)
    ensures forall i :: 0 <= i < |t| ==> t[i].1 == HeadcountOf(outputs[i].1)
  {
    seq(|outputs|, i requires 0 <= i < |outputs| => (outputs[i].0, HeadcountOf(outputs[i].1)))
  }

  /** The total investment is the sum of the per-department figures. */
  lemma {:induction false} TotalBudgetIsSumOfDepartments(outputs: seq<(string, AgentOutput)>)
    ensures TotalBudget(outputs) == SumReals(Values(BudgetByDepartment(outputs)))
  {
    if outputs != [] {
      var prev := outputs[..|outputs| - 1];
      TotalBudgetIsSumOfDepartments(prev);
      var vs := Values(BudgetByDepartment(outputs));
      assert vs[..|vs| - 1] == Values(BudgetByDepartment(prev));
    }
  }

  /** The total of new hires is the sum of the per-department figures. */
  lemma {:induction false} TotalHeadcountIsSumOfDepartments(outputs: seq<(string, AgentOutput)>)
    ensures TotalHeadcount(outputs) == SumInts(Values(HeadcountByDepartment(outputs)))
  {
    if outputs != [] {
      var prev := outputs[..|outputs| - 1];
      TotalHeadcountIsSumOfDepartments(prev);
      var vs := Values(HeadcountByDepartment(outputs));
      assert vs[..|vs| - 1] == Values(HeadcountByDepartment(prev));
    }
  }

  /** When no budget impact is negative, no single department exceeds the total. */
  lemma {:induction false} DepartmentBudgetWithinTotal(outputs: seq<(string, AgentOutput)>, i: nat)
    requires forall j :: 0 <= j < |outputs| ==> BudgetOf(outputs[j].1) >= 0.0
    requires i < |outputs|
    ensures 0.0 <= BudgetOf(outputs[i].1) <= TotalBudget(outputs)
  {
    var prev := outputs[..|outputs| - 1];
    TotalBudgetNonNegative(prev);
    if i < |outputs| - 1 {
      DepartmentBudgetWithinTotal(prev, i);
    }
  }

  lemma {:induction false} TotalBudgetNonNegative(outputs: seq<(string, AgentOutput)>)
    requires forall j :: 0 <= j < |outputs| ==> BudgetOf(outputs[j].1) >= 0.0
    ensures TotalBudget(outputs) >= 0.0
  {
    if outputs != [] {
      TotalBudgetNonNegative(outputs[..|outputs| - 1]);
    }
  }

  /** Python's `int()` of a float: drops the fraction, rounding toward zero. */
  function TruncateToInt(x: real): (n: int)
    ensures x >= 0.0 ==> n as real <= x < n as real + 1.0
    ensures x < 0.0 ==> n as real - 1.0 < x <= n as real
  {
    if x >= 0.0 then x.Floor else -((-x).Floor)
  }

  datatype StrategicOption = StrategicOption(
    name: string,
    investment: real,
    timelineDays: nat,
    headcount: int,
    expectedImprovement: string,
    confidence: real)

  /**
   * `_build_strategic_options`: the full program at the totals over 90 days,
   * a phased rollout at 60% over 180 days and a minimal program at 30% over
   * 45 days, the scaled headcounts truncated to whole people.
   */
  function StrategicOptions(outputs: seq<(string, AgentOutput)>): (opts: seq<StrategicOption>)
    ensures |opts| == 3
    ensures opts[0].investment == TotalBudget(outputs) && opts[0].headcount == TotalHeadcount(outputs)
    ensures opts[1].investment == TotalBudget(outputs) * 0.6
    ensures opts[1].headcount == TruncateToInt(TotalHeadcount(outputs) as real * 0.6)
    ensures opts[2].investment == TotalBudget(outputs) * 0.3
    ensures opts[2].headcount == TruncateToInt(TotalHeadcount(outputs) as real * 0.3)
    ensures opts[0].timelineDays == 90 && opts[1].timelineDays == 180 && opts[2].timelineDays == 45
    ensures opts[0].confidence == 0.85 && opts[1].confidence == 0.80 && opts[2].confidence == 0.70
  {
    var budget := TotalBudget(outputs);
    var headcount := TotalHeadcount(outputs);
    [ StrategicOption("Comprehensive Retention Program", budget, 90, headcount, "8-10%", 0.85),
      StrategicOption("Phased Rollout", budget * 0.6, 180, TruncateToInt(headcount as real * 0.6), "5-6%", 0.80),
      StrategicOption("Minimum Viable Program", budget * 0.3, 45, TruncateToInt(headcount as real * 0.3), "3-4%", 0.70) ]
  }

  /**
   * The options step down: the full program carries the totals, and with
   * non-negative totals each later option invests and hires no more than the
   * one before, at lower confidence; the scaled headcounts are the scaled
   * totals rounded down.
   */
  lemma OptionsStepDown(outputs: seq<(string, AgentOutput)>)
    requires TotalBudget(outputs) >= 0.0 && TotalHeadcount(outputs) >= 0
    ensures StrategicOptions(outputs)[0].investment == TotalBudget(outputs)
    ensures StrategicOptions(outputs)[0].headcount == TotalHeadcount(outputs)
    ensures StrategicOptions(outputs)[2].investment <= StrategicOptions(outputs)[1].investment
            <= StrategicOptions(outputs)[0].investment
    ensures 0 <= StrategicOptions(outputs)[2].headcount <= StrategicOptions(outputs)[1].headcount
            <= StrategicOptions(outputs)[0].headcount
    ensures StrategicOptions(outputs)[2].confidence < StrategicOptions(outputs)[1].confidence
            < StrategicOptions(outputs)[0].confidence
    ensures StrategicOptions(outputs)[1].headcount as real <= TotalHeadcount(outputs) as real * 0.6
            < StrategicOptions(outputs)[1].headcount as real + 1.0
    ensures StrategicOptions(outputs)[2].headcount as real <= TotalHeadcount(outputs) as real * 0.3
            < StrategicOptions(outputs)[2].headcount as real + 1.0
    ensures StrategicOptions(outputs)[2].timelineDays < StrategicOptions(outputs)[0].timelineDays
            < StrategicOptions(outputs)[1].timelineDays
  {
  }

  /** A negative headcount scales toward zero, as `int()` truncates rather than floors. */
  lemma NegativeHeadcountTruncatesTowardZero()
    ensures TruncateToInt(-1 as real * 0.6) == 0 && (-1 as real * 0.6).Floor == -1
  {
  }

  /** A department's plan: what its agent recommended and estimated. */
  datatype DepartmentPlan = DepartmentPlan(
    recommendations: seq<Recommendation>,
    confidence: real,
    budget: Option<real>,
    headcount: Option<int>,
    timelineDays: Option<int>,
    citations: seq<string>)

  /**
   * `_build_department_plans`: one plan per agent, in table order, keeping
   * the agent's recommendations, confidence, estimates (absent ones stay
   * absent) and citations.
   */
  function DepartmentPlans(outputs: seq<(string, AgentOutput)>): (plans: seq<(string, DepartmentPlan)>)
    ensures Keys(plans) == Keys(outputs)
    ensures forall i :: 0 <= i < |plans| ==>
              var o := outputs[i].1;
              plans[i].1 == DepartmentPlan(o.recommendations, o.confidence, o.budgetImpact,
                                           o.headcountImpact, o.timelineDays, o.citations)
  {
    seq(|outputs|, i requires 0 <= i < |outputs| =>
      var o := outputs[i].1;
      (outputs[i].0, DepartmentPlan(o.recommendations, o.confidence, o.budgetImpact,
                                    o.headcountImpact, o.timelineDays, o.citations)))
  }

  /** Every agent's risks, concatenated in table order. */
  function AllRisks(outputs: seq<(string, AgentOutput)>): (rs: seq<string>)
    ensures forall r :: r in rs <==> exists i :: 0 <= i < |outputs| && r in outputs[i].1.risks
  {
    if outputs == [] then []
    else
      var prev := outputs[..|outputs| - 1];
      assert forall i :: 0 <= i < |prev| ==> prev[i] == outputs[i];
      AllRisks(prev) + outputs[|outputs| - 1].1.risks
  }

  /** `list(set(all_risks))`: each risk once. */
  function Risks(outputs: seq<(string, AgentOutput)>): (rs: seq<string>)
    ensures Distinct(rs)
    ensures forall r :: r in rs <==> exists i :: 0 <= i < |outputs| && r in outputs[i].1.risks
  {
    Dedup(AllRisks(outputs))
  }

  /** An escalation of one agent's output to the CEO. */
  datatype Escalation = Escalation(
    agent: string,
    reason: string,
    budgetImpact: Option<real>,
    headcountImpact: Option<int>)

  const StandingAssumptions: seq<string> := [
    "Churn risk model accuracy of 75%+",
    "Market conditions remain stable",
    "Competitive response limited to matching (not exceeding) offers",
    "Hiring timeline achievable in current talent market"]

  const StandingDependencies: seq<string> := [
    "Q1 financial close completion",
    "Board budget approval",
    "IT system integrations completed",
    "Marketing automation platform deployed"]

  /** The executive dashboard record (the text-only fields are not modelled). */
  datatype ExecutiveOutput = ExecutiveOutput(
    promptId: string,
    targetValue: real,
    constraint: string,
    strategicOptions: seq<StrategicOption>,
    departmentPlans: seq<(string, DepartmentPlan)>,
    totalInvestment: real,
    budgetByDepartment: seq<(string, real)>,
    totalNewHires: int,
    headcountByDepartment: seq<(string, int)>,
    risks: seq<string>,
    assumptions: seq<string>,
    dependencies: seq<string>,
    alignmentStatus: string,
    escalations: seq<Escalation>)

  /**
   * `_generate_executive_output`: the totals agree with the per-department
   * figures and with the full-program option, every department has a plan
   * and a budget and headcount line, and the risks are free of repetitions.
   */
  function ExecutiveOutputOf(promptId: string, targetValue: real, constraint: string,
                             outputs: seq<(string, AgentOutput)>, alignmentStatus: string,
                             escalations: seq<Escalation>): (e: ExecutiveOutput)
    ensures e.totalInvestment == SumReals(Values(e.budgetByDepartment))
    ensures e.totalNewHires == SumInts(Values(e.headcountByDepartment))
    ensures |e.strategicOptions| == 3 && e.strategicOptions[0].investment == e.totalInvestment
    ensures e.strategicOptions[0].headcount == e.totalNewHires
    ensures Keys(e.departmentPlans) == Keys(outputs) && Keys(e.budgetByDepartment) == Keys(outputs)
    ensures Keys(e.headcountByDepartment) == Keys(outputs)
    ensures Distinct(e.risks)
    ensures e.budgetByDepartment == BudgetByDepartment(outputs)
    ensures e.headcountByDepartment == HeadcountByDepartment(outputs)
    ensures e.departmentPlans == DepartmentPlans(outputs)
    ensures e.strategicOptions == StrategicOptions(outputs) && e.risks == Risks(outputs)
    ensures e.targetValue == targetValue && e.constraint == constraint
    ensures e.promptId == promptId && e.alignmentStatus == alignmentStatus && e.escalations == escalations
  {
    TotalBudgetIsSumOfDepartments(outputs);
    TotalHeadcountIsSumOfDepartments(outputs);
    ExecutiveOutput(promptId, targetValue, constraint, StrategicOptions(outputs), DepartmentPlans(outputs),
                    TotalBudget(outputs), BudgetByDepartment(outputs),
                    TotalHeadcount(outputs), HeadcountByDepartment(outputs),
                    Risks(outputs), StandingAssumptions, StandingDependencies, alignmentStatus, escalations)
  }
}
