/**
 * What every functional agent shares: the standard output record, the
 * confidence formula, the citation and recommendation formats, and the
 * per-agent task counter. The agents' own recommendation logic is outside
 * this model; their outputs reach the core as `AgentOutput` values.
 */
module BaseAgent {
  import opened Common
  import opened Text

  /** A recommendation as `_format_recommendation` lays it out. */
  datatype Recommendation = Recommendation(
    title: string,
    description: string,
    expectedImpact: string,
    actionItems: seq<string>)

  /** The standard output of an agent, after `__post_init__` has replaced absent lists by `[]`. */
  datatype AgentOutput = AgentOutput(
    agentName: string,
    taskId: string,
    recommendations: seq<Recommendation>,
    confidence: real,
    citations: seq<string>,
    whatWouldChangeMind: seq<string>,
    budgetImpact: Option<real>,
    headcountImpact: Option<int>,
    timelineDays: Option<int>,
    risks: seq<string>,
    dependencies: seq<string>)

  /**
   * Building an `AgentOutput`: the three optional lists (`risks`,
   * `dependencies`, `what_would_change_mind`) become `[]` when absent and
   * every other field is kept as given.
   */
  function NewAgentOutput(
    agentName: string, taskId: string, recommendations: seq<Recommendation>, confidence: real,
    citations: seq<string>, whatWouldChangeMind: Option<seq<string>>, budgetImpact: Option<real>,
    headcountImpact: Option<int>, timelineDays: Option<int>, risks: Option<seq<string>>,
    dependencies: Option<seq<string>>): (o: AgentOutput)
    ensures o.risks == (if risks.None? then [] else risks.value)
    ensures o.dependencies == (if dependencies.None? then [] else dependencies.value)
    ensures o.whatWouldChangeMind == (if whatWouldChangeMind.None? then [] else whatWouldChangeMind.value)
    ensures o.agentName == agentName && o.taskId == taskId && o.recommendations == recommendations
    ensures o.confidence == confidence && o.citations == citations
    ensures o.budgetImpact == budgetImpact && o.headcountImpact == headcountImpact
    ensures o.timelineDays == timelineDays
  {
    AgentOutput(agentName, taskId, recommendations, confidence, citations,
                whatWouldChangeMind.GetOr([]), budgetImpact, headcountImpact, timelineDays,
                risks.GetOr([]), dependencies.GetOr([]))
  }

  function MinReal(a: real, b: real): real { if a <= b then a else b }
  function MaxReal(a: real, b: real): real { if a >= b then a else b }

  /** Each assumption costs 0.05 of confidence, never more than 0.3 in total. */
  function AssumptionPenalty(assumptionsMade: int): (p: real)
    ensures p <= 0.3
    ensures assumptionsMade <= 6 ==> p == 0.05 * assumptionsMade as real
    ensures assumptionsMade >= 6 ==> p == 0.3
  {
    MinReal(0.3, assumptionsMade as real * 0.05)
  }

  /**
   * `_assess_confidence`: data quality minus the assumption penalty, plus 0.1
   * (capped at 1.0) when there is a historical precedent, clamped to [0, 1].
   */
  function AssessConfidence(dataQuality: real, assumptionsMade: int, historicalPrecedent: bool): (c: real)
    ensures 0.0 <= c <= 1.0
  {
    var base := dataQuality - AssumptionPenalty(assumptionsMade);
    var boosted := if historicalPrecedent then MinReal(1.0, base + 0.1) else base;
    MaxReal(0.0, MinReal(1.0, boosted))
  }

  /** More assumptions never raise the confidence. */
  lemma ConfidenceNonIncreasingInAssumptions(q: real, n1: int, n2: int, precedent: bool)
    requires n1 <= n2
    ensures AssessConfidence(q, n2, precedent) <= AssessConfidence(q, n1, precedent)
  {
  }

  /** A historical precedent never lowers the confidence. */
  lemma PrecedentNeverLowersConfidence(q: real, n: int)
    ensures AssessConfidence(q, n, true) >= AssessConfidence(q, n, false)
  {
  }

  /** With good data and no assumptions the score is the data quality itself. */
  lemma ConfidenceIsDataQualityWithoutAssumptions(q: real)
    requires 0.0 <= q <= 1.0
    ensures AssessConfidence(q, 0, false) == q
  {
  }

  /** `_cite_data_source`: `"<source>:<query>:<records>_records"`. */
  function CiteDataSource(source: string, query: string, records: int): string {
    source + ":" + query + ":" + IntText(records) + "_records"
  }

  datatype CitationParts = CitationParts(source: string, query: string, records: int)

  /** Splits `s` at its first `c`: the text before it and the text after it. */
  function SplitFirst(s: string, c: char): Option<(string, string)> {
    var i := FirstIndex(s, c);
    if i == |s| then None else Some((s[..i], s[i + 1..]))
  }

  /** Splitting at the separator recovers both halves when the first half has no separator. */
  lemma SplitFirstJoin(a: string, b: string, c: char)
    requires c !in a
    ensures SplitFirst(a + [c] + b, c) == Some((a, b))
  {
    var s := a + [c] + b;
    assert forall i :: 0 <= i < |a| ==> s[i] == a[i] && a[i] in a;
    assert s[|a|] == c;
    assert s[..|a|] == a && s[|a| + 1..] == b;
  }

  /** Reads `"<n>_records"` back into `n`. */
  function ParseRecords(t: string): Option<int> {
    if |t| < 8 || t[|t| - 8..] != "_records" then None else ParseInt(t[..|t| - 8])
  }

  /** Reads a citation string back into its three parts. */
  function ParseCitation(s: string): Option<CitationParts> {
    match SplitFirst(s, ':')
    case None => None
    case Some((source, rest)) =>
      match SplitFirst(rest, ':')
      case None => None
      case Some((query, tail)) =>
        match ParseRecords(tail)
        case None => None
        case Some(n) => Some(CitationParts(source, query, n))
  }

  /**
   * The citation format loses nothing: when neither the source nor the query
   * contains a colon, the three parts can be read back from the citation.
   */
  lemma CitationRoundTrip(source: string, query: string, records: int)
    requires ':' !in source && ':' !in query
    ensures ParseCitation(CiteDataSource(source, query, records)) == Some(CitationParts(source, query, records))
  {
    var tail := IntText(records) + "_records";
    var rest := query + [':'] + tail;
    assert CiteDataSource(source, query, records) == source + [':'] + rest;
    SplitFirstJoin(source, rest, ':');
    SplitFirstJoin(query, tail, ':');
    RecordsRoundTrip(records);
  }

  /** The record count reads back from its `"<n>_records"` text. */
  lemma RecordsRoundTrip(records: int)
    ensures ParseRecords(IntText(records) + "_records") == Some(records)
  {
    var num := IntText(records);
    var tail := num + "_records";
    assert tail[|tail| - 8..] == "_records";
    assert tail[..|tail| - 8] == num;
    IntTextRoundTrip(records);
  }

  /** `_format_recommendation`: exactly the four keys, each echoing its argument. */
  function FormatRecommendation(title: string, description: string, expectedImpact: string,
                                actionItems: seq<string>): (r: Recommendation)
    ensures r.title == title && r.description == description
    ensures r.expectedImpact == expectedImpact && r.actionItems == actionItems
  {
    Recommendation(title, description, expectedImpact, actionItems)
  }

  /** A task id: `f"{NAME}-{count:04d}-{uuid_hex[:6]}"`. */
  function TaskIdText(agentName: string, count: nat, uuidHex: string): string {
    Upper(agentName) + "-" + Padded(count, 4) + "-" + uuidHex[..if |uuidHex| < 6 then |uuidHex| else 6]
  }

  /**
   * Two task ids of one agent whose random parts have the same length differ
   * whenever their counts do, whatever the random parts are.
   */
  lemma TaskIdsDistinct(agentName: string, c1: nat, c2: nat, h1: string, h2: string)
    requires c1 != c2
    requires |h1| == |h2|
    ensures TaskIdText(agentName, c1, h1) != TaskIdText(agentName, c2, h2)
  {
    TaskIdCount(agentName, c1, h1);
    TaskIdCount(agentName, c2, h2);
    PaddedRoundTrip(c1, 4);
    PaddedRoundTrip(c2, 4);
  }

  /** The padded count sits between the name prefix and the dash before the random part. */
  lemma TaskIdCount(agentName: string, c: nat, h: string)
    ensures var t := TaskIdText(agentName, c, h);
            var k := if |h| < 6 then |h| else 6;
            |Upper(agentName) + "-"| <= |t| - 1 - k
            && t[|Upper(agentName) + "-"|..|t| - 1 - k] == Padded(c, 4)
  {
    var p := Upper(agentName) + "-";
    var k := if |h| < 6 then |h| else 6;
    var t := TaskIdText(agentName, c, h);
    assert t == p + Padded(c, 4) + "-" + h[..k];
    assert t[|p|..|t| - 1 - k] == Padded(c, 4);
  }

  /** The part of an agent the core relies on: its name and its task counter. */
  class Agent {
    const agentName: string
    var taskCount: nat

    constructor (agentName: string)
      ensures this.agentName == agentName && taskCount == 0
    {
      this.agentName := agentName;
      taskCount := 0;
    }

    /** `_generate_task_id`: bumps the counter by exactly one and embeds the new count. */
    method GenerateTaskId(uuidHex: string) returns (id: string)
      modifies this
      ensures taskCount == old(taskCount) + 1
      ensures id == TaskIdText(agentName, taskCount, uuidHex)
    {
      taskCount := taskCount + 1;
      id := TaskIdText(agentName, taskCount, uuidHex);
    }
  }
}
