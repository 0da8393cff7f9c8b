/**
 * The audit trail: an append-only log of agent decisions. Each record
 * carries a confidence tier derived from its score and an integrity hash
 * over its id, timestamp, agent and decision text; records are indexed by
 * prompt and by agent, collect approvals, and feed a summary report.
 *
 * Time is an integer clock passed in by the caller; `day` is the
 * `%Y%m%d` rendering of that clock used inside ids. The hash function is
 * a parameter of the logger, so every property proved here holds for any
 * hash function.
 */
module AuditLogger {
  import opened Common
  import opened Text
  import opened Table

  datatype DecisionType = Recommendation | Approval | Rejection | Escalation | Allocation | Forecast | Strategy
  {
    function Value(): string {
      match this
      case Recommendation => "recommendation"
      case Approval => "approval"
      case Rejection => "rejection"
      case Escalation => "escalation"
      case Allocation => "allocation"
      case Forecast => "forecast"
      case Strategy => "strategy"
    }
  }

  datatype ConfidenceLevel = VeryLow | Low | Medium | High | VeryHigh
  {
    function Value(): string {
      match this
      case VeryLow => "very_low"
      case Low => "low"
      case Medium => "medium"
      case High => "high"
      case VeryHigh => "very_high"
    }

    /** Position in the order from very low to very high. */
    function Rank(): nat {
      match this
      case VeryLow => 0
      case Low => 1
      case Medium => 2
      case High => 3
      case VeryHigh => 4
    }
  }

  /** The confidence tier of a score: breakpoints 0.9, 0.8, 0.65 and 0.5, each inclusive. */
  function Tier(score: real): (c: ConfidenceLevel)
    ensures c == VeryHigh <==> score >= 0.9
    ensures c == High <==> 0.8 <= score < 0.9
    ensures c == Medium <==> 0.65 <= score < 0.8
    ensures c == Low <==> 0.5 <= score < 0.65
    ensures c == VeryLow <==> score < 0.5
  {
    if score >= 0.9 then VeryHigh
    else if score >= 0.8 then High
    else if score >= 0.65 then Medium
    else if score >= 0.5 then Low
    else VeryLow
  }

  /** A higher score never gets a lower tier. */
  lemma TierMonotone(s: real, t: real)
    requires s <= t
    ensures Tier(s).Rank() <= Tier(t).Rank()
  {
  }

  /** A reference to the data behind a decision; the captured value is kept as text. */
  datatype Citation = Citation(sourceType: string, sourceId: string, description: string, value: string, timestamp: int)

  /** What the integrity hash covers. */
  datatype HashInput = HashInput(id: string, timestamp: int, agentName: string, decision: string)

  datatype DecisionRecord = DecisionRecord(
    id: string,
    timestamp: int,
    agentName: string,
    agentVersion: string,
    decisionType: DecisionType,
    promptId: string,
    decision: string,
    rationale: string,
    confidence: ConfidenceLevel,
    confidenceScore: real,
    citations: seq<Citation>,
    dataSources: seq<string>,
    whatWouldChangeMind: string,
    assumptions: seq<string>,
    keyUncertainties: seq<string>,
    requiredApprovals: seq<string>,
    obtainedApprovals: seq<string>,
    escalatedTo: Option<string>,
    outcome: Option<string>,
    outcomeTimestamp: Option<int>,
    outcomeNotes: Option<string>,
    hash: string)
  {
    /** `compute_hash`: the digest of id, timestamp, agent name and decision text. */
    function ComputeHash(digest: HashInput -> string): string {
      digest(HashInput(id, timestamp, agentName, decision))
    }

    /** Whether the stored hash matches a recomputation. */
    predicate Intact(digest: HashInput -> string) {
      hash == ComputeHash(digest)
    }

    /** The record with its mutable fields (approvals obtained, outcome tracking) cleared. */
    function Frozen(): DecisionRecord {
      this.(obtainedApprovals := [], outcome := None, outcomeTimestamp := None, outcomeNotes := None)
    }
  }

  /** Changing the outcome fields or the approvals obtained leaves the recomputed hash as it was. */
  lemma HashIgnoresMutableFields(r: DecisionRecord, s: DecisionRecord, digest: HashInput -> string)
    requires s.Frozen() == r.Frozen()
    ensures s.ComputeHash(digest) == r.ComputeHash(digest)
    ensures s.Intact(digest) <==> r.Intact(digest)
  {
    assert s.Frozen().id == s.id && r.Frozen().id == r.id;
    assert s.Frozen().decision == s.decision && r.Frozen().decision == r.decision;
  }

  /**
   * With a digest that tells its inputs apart, altering a stored record's
   * id, timestamp, agent or decision text out of band makes the check fail.
   * This is detection up to digest collisions only: the truncated SHA-256 of
   * a colon-joined text is not injective, so a tampered record whose text
   * collides, or whose fields shift across a colon, still passes.
   */
  lemma TamperDetected(r: DecisionRecord, s: DecisionRecord, digest: HashInput -> string)
    requires forall a, b :: digest(a) == digest(b) ==> a == b
    requires r.Intact(digest) && s.hash == r.hash
    requires s.id != r.id || s.timestamp != r.timestamp || s.agentName != r.agentName || s.decision != r.decision
    ensures !s.Intact(digest)
  {
  }

  /** An audit id: `"AUD-" + day + "-" + f"{counter:06d}"`. */
  function AudIdText(day: string, counter: nat): string {
    Stamp("AUD-", day, counter, 6)
  }

  /** `approver` added to the approvals obtained unless it is already there. */
  function WithApproval(obtained: seq<string>, approver: string): (r: seq<string>)
    ensures approver in r
    ensures forall a :: a in r <==> a in obtained || a == approver
    ensures approver in obtained ==> r == obtained
    ensures approver !in obtained ==> r == obtained + [approver]
  {
    if approver in obtained then obtained else obtained + [approver]
  }

  /** Recording the same approval twice has the effect of recording it once. */
  lemma WithApprovalIdempotent(obtained: seq<string>, approver: string)
    ensures WithApproval(WithApproval(obtained, approver), approver) == WithApproval(obtained, approver)
  {
  }

  /** `get_pending_approvals`: some required approver has not approved yet. */
  predicate AwaitingApproval(r: DecisionRecord) {
    r.requiredApprovals != [] && exists a :: a in r.requiredApprovals && a !in r.obtainedApprovals
  }

  /** The report's notion of pending: approvals are required and none has been obtained. */
  predicate CountedPending(r: DecisionRecord) {
    r.requiredApprovals != [] && r.obtainedApprovals == []
  }

  /** `escalated_to` is truthy: present and not empty. */
  predicate Escalated(r: DecisionRecord) {
    r.escalatedTo.Some? && r.escalatedTo.value != ""
  }

  /** A record the report counts as pending is awaiting approval. */
  lemma CountedPendingIsAwaiting(r: DecisionRecord)
    requires CountedPending(r)
    ensures AwaitingApproval(r)
  {
    assert r.requiredApprovals[0] in r.requiredApprovals;
  }

  /**
   * The converse fails: a record with one of two required approvals is
   * awaiting approval, but the report does not count it as pending.
   */
  lemma PartialApprovalNotCounted(r: DecisionRecord, a: string, b: string)
    requires a != b && r.requiredApprovals == [a, b] && r.obtainedApprovals == [a]
    ensures AwaitingApproval(r) && !CountedPending(r)
  {
    assert b in r.requiredApprovals && b !in r.obtainedApprovals;
  }

  /** The elements of `xs` that `keep` accepts, in their order (a list comprehension with a filter). */
  function Where<T(!new)>(xs: seq<T>, keep: T -> bool): (r: seq<T>)
    ensures |r| <= |xs|
    ensures forall x :: x in r <==> x in xs && keep(x)
  {
    if xs == [] then []
    else
      var prev := xs[..|xs| - 1];
      var last := xs[|xs| - 1];
      assert xs == prev + [last];
      Where(prev, keep) + (if keep(last) then [last] else [])
  }

  /** When every element `p` accepts is accepted by `q`, `q` keeps at least as many. */
  lemma {:induction false} WhereCountMonotone<T(!new)>(xs: seq<T>, p: T -> bool, q: T -> bool)
    requires forall x :: x in xs && p(x) ==> q(x)
    ensures |Where(xs, p)| <= |Where(xs, q)|
  {
    if xs != [] {
      var prev := xs[..|xs| - 1];
      assert forall x :: x in prev ==> x in xs;
      WhereCountMonotone(prev, p, q);
    }
  }

  /** The report's pending count never exceeds the number of records awaiting approval. */
  lemma ReportUndercountsPending(rs: seq<DecisionRecord>)
    ensures |Where(rs, CountedPending)| <= |Where(rs, AwaitingApproval)|
  {
    forall r | r in rs && CountedPending(r) ensures AwaitingApproval(r) {
      CountedPendingIsAwaiting(r);
    }
    WhereCountMonotone(rs, CountedPending, AwaitingApproval);
  }

  // ---------------------------------------------------------------------
  // Record ids
  // ---------------------------------------------------------------------

  predicate DistinctIds(rs: seq<DecisionRecord>) {
    forall i, j {:trigger IdAt(rs, i), IdAt(rs, j)} :: 0 <= i < j < |rs| ==> IdAt(rs, i) != IdAt(rs, j)
  }

  /** The id of the record at position `i` (empty outside the log). */
  function IdAt(rs: seq<DecisionRecord>, i: int): string {
    if 0 <= i < |rs| then rs[i].id else ""
  }

  /** No record carries an id that a counter value above `counter` would produce. */
  ghost predicate NoneIssuedAfter(rs: seq<DecisionRecord>, counter: nat) {
    forall r :: r in rs ==> IdNotAhead(r.id, counter)
  }

  /** No counter value above `counter` produces this id. */
  ghost predicate IdNotAhead(id: string, counter: nat) {
    forall d, n :: |d| == 8 && n > counter ==> id != AudIdText(d, n)
  }

  /** The position of the record with id `id`, or `|rs|` when there is none. */
  function RecordIndex(rs: seq<DecisionRecord>, id: string): (k: nat)
    ensures k <= |rs|
    ensures k < |rs| ==> rs[k].id == id
    ensures forall j :: 0 <= j < k ==> rs[j].id != id
  {
    if rs == [] then 0 else if rs[0].id == id then 0 else 1 + RecordIndex(rs[1..], id)
  }

  /** Appending a record with another id does not move where an id is found. */
  lemma {:induction false} RecordIndexExtend(rs: seq<DecisionRecord>, x: DecisionRecord, id: string)
    requires x.id != id
    ensures RecordIndex(rs + [x], id) == if RecordIndex(rs, id) < |rs| then RecordIndex(rs, id) else |rs| + 1
  {
    if rs != [] && rs[0].id != id {
      assert (rs + [x])[1..] == rs[1..] + [x];
      RecordIndexExtend(rs[1..], x, id);
    }
  }

  /** An id made from counter value `n` is none of those made from larger values. */
  lemma AudIdAhead(day: string, n: nat)
    requires |day| == 8
    ensures IdNotAhead(AudIdText(day, n), n)
  {
    forall d, m | |d| == 8 && m > n ensures AudIdText(day, n) != AudIdText(d, m) {
      if AudIdText(day, n) == AudIdText(d, m) {
        StampInjective("AUD-", day, n, d, m, 6);
      }
    }
  }

  /** The id made from the next counter value is none of the ids already logged. */
  lemma AudIdFresh(rs: seq<DecisionRecord>, counter: nat, day: string)
    requires NoneIssuedAfter(rs, counter) && |day| == 8
    ensures forall r :: r in rs ==> r.id != AudIdText(day, counter + 1)
  {
    forall r | r in rs ensures r.id != AudIdText(day, counter + 1) {
      assert IdNotAhead(r.id, counter);
    }
  }

  /** Appending a record whose id is new keeps the ids unique. */
  lemma AppendDistinct(rs: seq<DecisionRecord>, x: DecisionRecord)
    requires DistinctIds(rs)
    requires forall r :: r in rs ==> r.id != x.id
    ensures DistinctIds(rs + [x])
  {
    var ext := rs + [x];
    forall i, j | 0 <= i < j < |ext| ensures IdAt(ext, i) != IdAt(ext, j) {
      assert ext[i] == rs[i] && rs[i] in rs;
      if j < |rs| {
        assert ext[j] == rs[j];
        assert IdAt(ext, i) == IdAt(rs, i) && IdAt(ext, j) == IdAt(rs, j);
      } else {
        assert ext[j] == x;
      }
    }
  }

  /** A lookup finds a record with a new id at the end of the log it was appended to. */
  lemma RecordIndexLast(rs: seq<DecisionRecord>, x: DecisionRecord)
    requires forall r :: r in rs ==> r.id != x.id
    ensures RecordIndex(rs + [x], x.id) == |rs|
  {
    var ext := rs + [x];
    forall j | 0 <= j < |rs| ensures ext[j].id != x.id {
      assert ext[j] == rs[j] && rs[j] in rs;
    }
    assert ext[|rs|] == x;
  }

  /** Appending a record whose id no later counter value produces keeps every id ahead of the counter. */
  lemma AppendIssued(rs: seq<DecisionRecord>, counter: nat, x: DecisionRecord)
    requires NoneIssuedAfter(rs, counter) && IdNotAhead(x.id, counter + 1)
    ensures NoneIssuedAfter(rs + [x], counter + 1)
  {
    assert forall r :: r in rs + [x] ==> r in rs || r == x;
  }

  // ---------------------------------------------------------------------
  // Prompt and agent indexes
  // ---------------------------------------------------------------------

  datatype IndexKind = ByPrompt | ByAgent

  /** The key a record is filed under in an index. */
  function KeyOf(r: DecisionRecord, kind: IndexKind): string {
    match kind
    case ByPrompt => r.promptId
    case ByAgent => r.agentName
  }

  /** The ids of the records filed under `key`, in logging order. */
  function IdsOf(rs: seq<DecisionRecord>, kind: IndexKind, key: string): seq<string> {
    if rs == [] then []
    else
      var last := rs[|rs| - 1];
      IdsOf(rs[..|rs| - 1], kind, key) + (if KeyOf(last, kind) == key then [last.id] else [])
  }

  /** Every id filed under a key is the id of a logged record. */
  lemma {:induction false} IdsOfLogged(rs: seq<DecisionRecord>, kind: IndexKind, key: string)
    ensures forall id :: id in IdsOf(rs, kind, key) ==> exists r :: r in rs && r.id == id
  {
    if rs != [] {
      var prev := rs[..|rs| - 1];
      IdsOfLogged(prev, kind, key);
      assert forall r :: r in prev ==> r in rs;
      assert rs[|rs| - 1] in rs;
    }
  }

  /** The records filed under `key`, in logging order. */
  function RecordsOf(rs: seq<DecisionRecord>, kind: IndexKind, key: string): seq<DecisionRecord> {
    if rs == [] then []
    else
      var last := rs[|rs| - 1];
      RecordsOf(rs[..|rs| - 1], kind, key) + (if KeyOf(last, kind) == key then [last] else [])
  }

  /** A key's records are exactly the logged records filed under it. */
  lemma {:induction false} RecordsOfMembers(rs: seq<DecisionRecord>, kind: IndexKind, key: string)
    ensures forall x :: x in RecordsOf(rs, kind, key) <==> x in rs && KeyOf(x, kind) == key
  {
    if rs != [] {
      var prev := rs[..|rs| - 1];
      RecordsOfMembers(prev, kind, key);
      assert rs == prev + [rs[|rs| - 1]];
    }
  }

  /** Appending a record adds it at the end of its own key's records only. */
  lemma RecordsOfAppend(rs: seq<DecisionRecord>, x: DecisionRecord, kind: IndexKind, key: string)
    ensures RecordsOf(rs + [x], kind, key) == RecordsOf(rs, kind, key) + (if KeyOf(x, kind) == key then [x] else [])
  {
    assert (rs + [x])[..|rs|] == rs;
  }

  /** An index holds, for every key, exactly the ids of the records filed under it. */
  ghost predicate IndexFaithful(index: seq<(string, seq<string>)>, rs: seq<DecisionRecord>, kind: IndexKind) {
    UniqueKeys(index) && forall key {:trigger Filed(index, key)} :: Filed(index, key) == IdsOf(rs, kind, key)
  }

  /** The ids an index files under a key; none when the key is absent. */
  function Filed(index: seq<(string, seq<string>)>, key: string): seq<string> {
    Lookup(index, key).GetOr([])
  }

  /** The index after the id of `x` is appended to the list of its key. */
  function IndexWith(index: seq<(string, seq<string>)>, x: DecisionRecord, kind: IndexKind): seq<(string, seq<string>)>
    requires UniqueKeys(index)
  {
    Upsert(index, KeyOf(x, kind), Filed(index, KeyOf(x, kind)) + [x.id])
  }

  /** Appending the new id to its key's list keeps the index faithful to the longer log. */
  lemma IndexAppend(index: seq<(string, seq<string>)>, rs: seq<DecisionRecord>, kind: IndexKind, x: DecisionRecord)
    requires IndexFaithful(index, rs, kind)
    ensures IndexFaithful(IndexWith(index, x, kind), rs + [x], kind)
  {
    var ext := rs + [x];
    assert ext[..|ext| - 1] == rs && ext[|ext| - 1] == x;
    forall key ensures Filed(IndexWith(index, x, kind), key) == IdsOf(ext, kind, key) {
      assert Filed(index, key) == IdsOf(rs, kind, key);
    }
  }

  /** Replacing a record by one with the same id and key leaves every key's ids as they were. */
  lemma {:induction false} IdsOfReplace(rs: seq<DecisionRecord>, i: nat, y: DecisionRecord, kind: IndexKind, key: string)
    requires i < |rs| && y.id == rs[i].id && KeyOf(y, kind) == KeyOf(rs[i], kind)
    ensures IdsOf(rs[i := y], kind, key) == IdsOf(rs, kind, key)
  {
    var n := |rs|;
    var ss := rs[i := y];
    if i == n - 1 {
      assert ss[..n - 1] == rs[..n - 1];
    } else {
      assert ss[..n - 1] == rs[..n - 1][i := y];
      assert ss[n - 1] == rs[n - 1];
      IdsOfReplace(rs[..n - 1], i, y, kind, key);
    }
  }

  /** The records a list of ids names, skipping ids with no record (the `if rid in self._records` filter). */
  function Resolve(rs: seq<DecisionRecord>, ids: seq<string>): seq<DecisionRecord> {
    if ids == [] then []
    else
      var k := RecordIndex(rs, ids[|ids| - 1]);
      Resolve(rs, ids[..|ids| - 1]) + (if k < |rs| then [rs[k]] else [])
  }

  lemma {:induction false} ResolveConcat(rs: seq<DecisionRecord>, a: seq<string>, b: seq<string>)
    ensures Resolve(rs, a + b) == Resolve(rs, a) + Resolve(rs, b)
  {
    if b == [] {
      assert a + b == a;
    } else {
      assert (a + b)[..|a + b| - 1] == a + b[..|b| - 1];
      ResolveConcat(rs, a, b[..|b| - 1]);
    }
  }

  /** Ids that the appended record does not carry resolve as before. */
  lemma {:induction false} ResolveExtend(rs: seq<DecisionRecord>, x: DecisionRecord, ids: seq<string>)
    requires forall id :: id in ids ==> id != x.id
    ensures Resolve(rs + [x], ids) == Resolve(rs, ids)
  {
    if ids != [] {
      var prev := ids[..|ids| - 1];
      assert forall id :: id in prev ==> id in ids;
      ResolveExtend(rs, x, prev);
      assert ids[|ids| - 1] in ids;
      RecordIndexExtend(rs, x, ids[|ids| - 1]);
    }
  }

  /** With unique ids, resolving a key's ids gives exactly the records filed under that key, in logging order. */
  lemma {:induction false} ResolveIndexed(rs: seq<DecisionRecord>, kind: IndexKind, key: string)
    requires DistinctIds(rs)
    ensures Resolve(rs, IdsOf(rs, kind, key)) == RecordsOf(rs, kind, key)
  {
    if rs != [] {
      var n := |rs|;
      var prev := rs[..n - 1];
      var x := rs[n - 1];
      assert rs == prev + [x];
      assert forall a {:trigger IdAt(prev, a)} :: 0 <= a < |prev| ==> IdAt(prev, a) == IdAt(rs, a);
      assert DistinctIds(prev);
      ResolveIndexed(prev, kind, key);
      var ids := IdsOf(prev, kind, key);
      LastIdIsNew(prev, x);
      IdsOfLogged(prev, kind, key);
      ResolveExtend(prev, x, ids);
      assert Resolve(rs, ids) == RecordsOf(prev, kind, key);
      if KeyOf(x, kind) == key {
        assert IdsOf(rs, kind, key) == ids + [x.id];
        assert RecordsOf(rs, kind, key) == RecordsOf(prev, kind, key) + [x];
        ResolveConcat(rs, ids, [x.id]);
        ResolveLast(prev, x);
      } else {
        assert IdsOf(rs, kind, key) == ids;
        assert RecordsOf(rs, kind, key) == RecordsOf(prev, kind, key);
      }
    }
  }

  /** In a log with unique ids, the last record's id is no earlier record's. */
  lemma LastIdIsNew(prev: seq<DecisionRecord>, x: DecisionRecord)
    requires DistinctIds(prev + [x])
    ensures forall r :: r in prev ==> r.id != x.id
  {
    var rs := prev + [x];
    forall r | r in prev ensures r.id != x.id {
      var j :| 0 <= j < |prev| && prev[j] == r;
      assert rs[j] == r && rs[|prev|] == x;
      assert IdAt(rs, j) == r.id && IdAt(rs, |prev|) == x.id;
    }
  }

  /** The id of a newly appended record resolves to that record. */
  lemma ResolveLast(prev: seq<DecisionRecord>, x: DecisionRecord)
    requires forall r :: r in prev ==> r.id != x.id
    ensures Resolve(prev + [x], [x.id]) == [x]
  {
    var rs := prev + [x];
    var k := RecordIndex(rs, x.id);
    assert rs[|prev|] == x;
    assert k == |prev|;
    assert [x.id][..0] == [];
  }

  // ---------------------------------------------------------------------
  // Queries and the report
  // ---------------------------------------------------------------------

  /** The report's filters: `start`/`end` bound the timestamp, a non-empty `agent` names the agent. */
  predicate Chosen(x: DecisionRecord, start: Option<int>, end: Option<int>, agent: Option<string>) {
    && (start.None? || x.timestamp >= start.value)
    && (end.None? || x.timestamp <= end.value)
    && (agent.None? || agent.value == "" || x.agentName == agent.value)
  }

  /** The records passing the report's filters, in logging order. */
  function Selected(rs: seq<DecisionRecord>, start: Option<int>, end: Option<int>, agent: Option<string>): (r: seq<DecisionRecord>)
    ensures forall x :: x in r <==> x in rs && Chosen(x, start, end, agent)
  {
    Where(rs, (x: DecisionRecord) => Chosen(x, start, end, agent))
  }

  function TypeValues(rs: seq<DecisionRecord>): (vs: seq<string>)
    ensures |vs| == |rs| && forall i :: 0 <= i < |rs| ==> vs[i] == rs[i].decisionType.Value()
  {
    seq(|rs|, i requires 0 <= i < |rs| => rs[i].decisionType.Value())
  }

  function TierValues(rs: seq<DecisionRecord>): (vs: seq<string>)
    ensures |vs| == |rs| && forall i :: 0 <= i < |rs| ==> vs[i] == rs[i].confidence.Value()
  {
    seq(|rs|, i requires 0 <= i < |rs| => rs[i].confidence.Value())
  }

  function Scores(rs: seq<DecisionRecord>): (vs: seq<real>)
    ensures |vs| == |rs| && forall i :: 0 <= i < |rs| ==> vs[i] == rs[i].confidenceScore
  {
    seq(|rs|, i requires 0 <= i < |rs| => rs[i].confidenceScore)
  }

  function AgentNames(rs: seq<DecisionRecord>): (vs: seq<string>)
    ensures |vs| == |rs| && forall i :: 0 <= i < |rs| ==> vs[i] == rs[i].agentName
  {
    seq(|rs|, i requires 0 <= i < |rs| => rs[i].agentName)
  }

  /** Counting one more record bumps the counts of its type and of its tier. */
  lemma CountStep(rs: seq<DecisionRecord>, i: nat)
    requires i < |rs|
    ensures Tally(TypeValues(rs[..i + 1])) == Bump(Tally(TypeValues(rs[..i])), rs[i].decisionType.Value())
    ensures Tally(TierValues(rs[..i + 1])) == Bump(Tally(TierValues(rs[..i])), rs[i].confidence.Value())
  {
    assert TypeValues(rs[..i + 1]) == TypeValues(rs[..i]) + [rs[i].decisionType.Value()];
    assert TierValues(rs[..i + 1]) == TierValues(rs[..i]) + [rs[i].confidence.Value()];
    TallySnoc(TypeValues(rs[..i]), rs[i].decisionType.Value());
    TallySnoc(TierValues(rs[..i]), rs[i].confidence.Value());
  }

  /** The earliest timestamp of a non-empty list of records. */
  function Earliest(rs: seq<DecisionRecord>): (t: int)
    requires rs != []
    ensures forall x :: x in rs ==> t <= x.timestamp
    ensures exists x :: x in rs && x.timestamp == t
  {
    if |rs| == 1 then rs[0].timestamp
    else
      var prev := rs[..|rs| - 1];
      var last := rs[|rs| - 1];
      assert rs == prev + [last];
      var t := Earliest(prev);
      if last.timestamp < t then last.timestamp else t
  }

  /** The latest timestamp of a non-empty list of records. */
  function Latest(rs: seq<DecisionRecord>): (t: int)
    requires rs != []
    ensures forall x :: x in rs ==> x.timestamp <= t
    ensures exists x :: x in rs && x.timestamp == t
  {
    if |rs| == 1 then rs[0].timestamp
    else
      var prev := rs[..|rs| - 1];
      var last := rs[|rs| - 1];
      assert rs == prev + [last];
      var t := Latest(prev);
      if last.timestamp > t then last.timestamp else t
  }

  /**
   * `generate_report`'s result. `NoDecisions` is the `{"total_decisions": 0}`
   * answer; `agents` lists every agent once.
   */
  datatype AuditReport =
    | NoDecisions
    | Report(total: nat, earliest: int, latest: int,
             byType: seq<(string, int)>, byConfidence: seq<(string, int)>,
             averageConfidence: real, pendingApprovals: nat, escalated: nat, agents: seq<string>)

  /**
   * The report over the selected records: no records gives `NoDecisions`;
   * otherwise the per-type and per-tier counts each add up to the total and
   * count each value's occurrences, the pending count never exceeds the
   * records awaiting approval, the date range runs from the earliest to the
   * latest timestamp (each bound is met by some record), and each agent
   * appears once.
   */
  function ReportOf(rs: seq<DecisionRecord>): (r: AuditReport)
    ensures r.NoDecisions? <==> rs == []
    ensures r.Report? ==>
              && r.total == |rs|
              && SumInts(Values(r.byType)) == r.total
              && SumInts(Values(r.byConfidence)) == r.total
              && (forall k :: Lookup(r.byType, k).GetOr(0) == multiset(TypeValues(rs))[k])
              && (forall k :: Lookup(r.byConfidence, k).GetOr(0) == multiset(TierValues(rs))[k])
              && r.averageConfidence == SumReals(Scores(rs)) / (|rs| as real)
              && r.pendingApprovals == |Where(rs, CountedPending)| <= |Where(rs, AwaitingApproval)|
              && r.escalated == |Where(rs, Escalated)| <= r.total
              && (forall x :: x in rs ==> r.earliest <= x.timestamp <= r.latest)
              && (exists x :: x in rs && x.timestamp == r.earliest)
              && (exists x :: x in rs && x.timestamp == r.latest)
              && Distinct(r.agents) && (forall a :: a in r.agents <==> a in AgentNames(rs))
  {
    if rs == [] then NoDecisions
    else
      ReportUndercountsPending(rs);
      Report(|rs|, Earliest(rs), Latest(rs), Tally(TypeValues(rs)), Tally(TierValues(rs)),
             SumReals(Scores(rs)) / (|rs| as real),
             |Where(rs, CountedPending)|, |Where(rs, Escalated)|, Dedup(AgentNames(rs)))
  }

  /** A registered callback: its name and whether it raises on a given record. */
  datatype Callback = Callback(name: string, raises: DecisionRecord -> bool)

  /** The callbacks' notifications about one record, in registration order: name, record id, whether it raised. */
  function Notifications(cbs: seq<Callback>, r: DecisionRecord): (ns: seq<(string, string, bool)>)
    ensures |ns| == |cbs|
    ensures forall i :: 0 <= i < |cbs| ==> ns[i] == (cbs[i].name, r.id, cbs[i].raises(r))
  {
    if cbs == [] then []
    else
      var prev := cbs[..|cbs| - 1];
      var ns := Notifications(prev, r);
      assert forall i :: 0 <= i < |prev| ==> prev[i] == cbs[i];
      ns + [(cbs[|cbs| - 1].name, r.id, cbs[|cbs| - 1].raises(r))]
  }

  /**
   * The logger's invariant: ids unique and ahead of the counter, both
   * indexes faithful to the log, and every stored hash matching its record.
   */
  ghost predicate ValidLog(rs: seq<DecisionRecord>, counter: nat, promptIndex: seq<(string, seq<string>)>,
                           agentIndex: seq<(string, seq<string>)>, digest: HashInput -> string)
  {
    && DistinctIds(rs) && NoneIssuedAfter(rs, counter)
    && IndexFaithful(promptIndex, rs, ByPrompt) && IndexFaithful(agentIndex, rs, ByAgent)
    && (forall r :: r in rs ==> r.Intact(digest))
  }

  /** Logging a new intact record under a fresh id that no later counter value produces keeps the invariant. */
  lemma LogKeepsValid(rs: seq<DecisionRecord>, counter: nat, promptIndex: seq<(string, seq<string>)>,
                      agentIndex: seq<(string, seq<string>)>, digest: HashInput -> string,
                      x: DecisionRecord)
    requires ValidLog(rs, counter, promptIndex, agentIndex, digest)
    requires IdNotAhead(x.id, counter + 1) && (forall r :: r in rs ==> r.id != x.id) && x.Intact(digest)
    ensures ValidLog(rs + [x], counter + 1, IndexWith(promptIndex, x, ByPrompt), IndexWith(agentIndex, x, ByAgent), digest)
  {
    AppendDistinct(rs, x);
    AppendIssued(rs, counter, x);
    IndexAppend(promptIndex, rs, ByPrompt, x);
    IndexAppend(agentIndex, rs, ByAgent, x);
    assert forall r :: r in rs + [x] ==> r in rs || r == x;
  }

  /** Replacing a record by one that differs only in its mutable fields keeps the invariant. */
  lemma ReplaceKeepsValid(rs: seq<DecisionRecord>, counter: nat, promptIndex: seq<(string, seq<string>)>,
                          agentIndex: seq<(string, seq<string>)>, digest: HashInput -> string,
                          k: nat, y: DecisionRecord)
    requires ValidLog(rs, counter, promptIndex, agentIndex, digest)
    requires k < |rs| && y.Frozen() == rs[k].Frozen()
    ensures ValidLog(rs[k := y], counter, promptIndex, agentIndex, digest)
  {
    var ss := rs[k := y];
    assert y.Frozen().id == y.id && rs[k].Frozen().id == rs[k].id;
    assert y.Frozen().promptId == y.promptId && rs[k].Frozen().promptId == rs[k].promptId;
    assert y.Frozen().agentName == y.agentName && rs[k].Frozen().agentName == rs[k].agentName;
    HashIgnoresMutableFields(rs[k], y, digest);
    assert rs[k] in rs;
    forall key ensures IdsOf(ss, ByPrompt, key) == IdsOf(rs, ByPrompt, key)
                    && IdsOf(ss, ByAgent, key) == IdsOf(rs, ByAgent, key) {
      IdsOfReplace(rs, k, y, ByPrompt, key);
      IdsOfReplace(rs, k, y, ByAgent, key);
    }
    assert forall i :: 0 <= i < |ss| && i != k ==> ss[i] == rs[i];
    assert forall a {:trigger IdAt(ss, a)} :: IdAt(ss, a) == IdAt(rs, a);
    assert forall r :: r in ss ==> r in rs || r == y;
  }

  /** A later log keeps every earlier record, changed at most in its mutable fields. */
  predicate Preserves(before: seq<DecisionRecord>, after: seq<DecisionRecord>) {
    |before| <= |after| && forall i :: 0 <= i < |before| ==> after[i].Frozen() == before[i].Frozen()
  }

  /** Preservation composes, so no sequence of operations alters what a record decided. */
  lemma PreservesTransitive(a: seq<DecisionRecord>, b: seq<DecisionRecord>, c: seq<DecisionRecord>)
    requires Preserves(a, b) && Preserves(b, c)
    ensures Preserves(a, c)
  {
  }

  /** The central audit log. */
  class AuditLogger {
    /** The hash function `compute_hash` applies (SHA-256 of the joined fields, first 16 hex digits). */
    const digest: HashInput -> string
    /** `_records`, in logging order; a record's key is its id. */
    var records: seq<DecisionRecord>
    var promptIndex: seq<(string, seq<string>)>
    var agentIndex: seq<(string, seq<string>)>
    var callbacks: seq<Callback>
    var counter: nat
    /** Every callback invocation so far: callback name, record id, whether it raised. */
    ghost var deliveries: seq<(string, string, bool)>

    ghost predicate Valid()
      reads this
    {
      ValidLog(records, counter, promptIndex, agentIndex, digest)
    }

    constructor (digest: HashInput -> string)
      ensures Valid()
      ensures this.digest == digest
      ensures records == [] && promptIndex == [] && agentIndex == [] && callbacks == [] && counter == 0
      ensures deliveries == []
    {
      this.digest := digest;
      records, promptIndex, agentIndex, callbacks, counter := [], [], [], [], 0;
      deliveries := [];
    }

    /** `get_record`: the record with this id, if any. */
    function Get(id: string): (r: Option<DecisionRecord>)
      reads this
      ensures r.Some? ==> r.value in records && r.value.id == id
      ensures r.None? <==> forall x :: x in records ==> x.id != id
    {
      var k := RecordIndex(records, id);
      if k < |records| then Some(records[k]) else None
    }

    /**
     * `log_decision`: bumps the counter, stores a record under a fresh id
     * with the tier of its score and a matching hash, files it last under
     * its prompt and its agent, and notifies every callback in order.
     */
    method LogDecision(agentName: string, agentVersion: string, decisionType: DecisionType, promptId: string,
                       decision: string, rationale: string, confidenceScore: real, citations: seq<Citation>,
                       dataSources: seq<string>, assumptions: Option<seq<string>>, whatWouldChangeMind: string,
                       keyUncertainties: Option<seq<string>>, requiredApprovals: Option<seq<string>>,
                       escalatedTo: Option<string>, now: int, day: string)
      returns (record: DecisionRecord)
      requires Valid() && |day| == 8
      modifies this
      ensures Valid()
      ensures counter == old(counter) + 1 && record.id == AudIdText(day, counter)
      ensures forall x :: x in old(records) ==> x.id != record.id
      ensures record == DecisionRecord(record.id, now, agentName, agentVersion, decisionType, promptId, decision,
                                       rationale, Tier(confidenceScore), confidenceScore, citations, dataSources,
                                       whatWouldChangeMind, assumptions.GetOr([]), keyUncertainties.GetOr([]),
                                       requiredApprovals.GetOr([]), [], escalatedTo, None, None, None,
                                       record.ComputeHash(digest))
      ensures records == old(records) + [record]
      ensures Get(record.id) == Some(record) && VerifyIntegrity(record.id)
      ensures RecordsOf(records, ByPrompt, promptId) == old(RecordsOf(records, ByPrompt, promptId)) + [record]
      ensures RecordsOf(records, ByAgent, agentName) == old(RecordsOf(records, ByAgent, agentName)) + [record]
      ensures callbacks == old(callbacks)
      ensures deliveries == old(deliveries) + Notifications(callbacks, record)
    {
      var id := AudIdText(day, counter + 1);
      var hash := digest(HashInput(id, now, agentName, decision));
      record := DecisionRecord(id, now, agentName, agentVersion, decisionType, promptId, decision,
                               rationale, Tier(confidenceScore), confidenceScore, citations, dataSources,
                               whatWouldChangeMind, assumptions.GetOr([]), keyUncertainties.GetOr([]),
                               requiredApprovals.GetOr([]), [], escalatedTo, None, None, None, hash);
      RecordsOfAppend(records, record, ByPrompt, promptId);
      RecordsOfAppend(records, record, ByAgent, agentName);
      AudIdAhead(day, counter + 1);
      AudIdFresh(records, counter, day);
      RecordIndexLast(records, record);
      Append(record);
      Notify(record);
    }

    /** Files a new intact record whose id is unused and not yet due from the counter: the log, the counter and both indexes grow by it. */
    method Append(record: DecisionRecord)
      requires Valid() && IdNotAhead(record.id, counter + 1)
      requires (forall x :: x in records ==> x.id != record.id) && record.Intact(digest)
      modifies this
      ensures Valid()
      ensures records == old(records) + [record] && counter == old(counter) + 1
      ensures callbacks == old(callbacks) && deliveries == old(deliveries)
    {
      LogKeepsValid(records, counter, promptIndex, agentIndex, digest, record);
      Commit(records + [record], counter + 1, IndexWith(promptIndex, record, ByPrompt), IndexWith(agentIndex, record, ByAgent));
    }

    method Commit(rs: seq<DecisionRecord>, n: nat, byPrompt: seq<(string, seq<string>)>, byAgent: seq<(string, seq<string>)>)
      modifies this
      ensures records == rs && counter == n && promptIndex == byPrompt && agentIndex == byAgent
      ensures callbacks == old(callbacks) && deliveries == old(deliveries)
    {
      records, counter, promptIndex, agentIndex := rs, n, byPrompt, byAgent;
    }

    /** Hands the record to every callback in registration order; a callback that raises is passed over. */
    method Notify(record: DecisionRecord)
      modifies this
      ensures deliveries == old(deliveries) + Notifications(callbacks, record)
      ensures records == old(records) && promptIndex == old(promptIndex) && agentIndex == old(agentIndex)
      ensures callbacks == old(callbacks) && counter == old(counter)
    {
      for k := 0 to |callbacks|
        invariant deliveries == old(deliveries) + Notifications(callbacks[..k], record)
      {
        assert callbacks[..k + 1][..k] == callbacks[..k];
        ghost var raised := callbacks[k].raises(record);
        deliveries := deliveries + [(callbacks[k].name, record.id, raised)];
      }
      assert callbacks[..|callbacks|] == callbacks;
    }

    /**
     * `update_outcome`: false and no change for an unknown id; otherwise
     * only that record's outcome, outcome time and notes change, so every
     * record stays intact.
     */
    method UpdateOutcome(recordId: string, outcome: string, notes: Option<string>, now: int) returns (found: bool)
      requires Valid()
      modifies this
      ensures Valid()
      ensures found <==> old(Get(recordId)).Some?
      ensures !found ==> records == old(records)
      ensures found ==>
                var k := RecordIndex(old(records), recordId);
                records == old(records)[k := old(records)[k].(outcome := Some(outcome), outcomeTimestamp := Some(now),
                                                              outcomeNotes := notes)]
      ensures Preserves(old(records), records)
      ensures promptIndex == old(promptIndex) && agentIndex == old(agentIndex)
      ensures counter == old(counter) && callbacks == old(callbacks) && deliveries == old(deliveries)
    {
      var k := RecordIndex(records, recordId);
      if k == |records| {
        return false;
      }
      var updated := records[k].(outcome := Some(outcome), outcomeTimestamp := Some(now), outcomeNotes := notes);
      ReplaceKeepsValid(records, counter, promptIndex, agentIndex, digest, k, updated);
      records := records[k := updated];
      return true;
    }

    /**
     * `add_approval`: false and no change for an unknown id; otherwise the
     * approver joins that record's obtained approvals unless already there,
     * so a repeated approval changes nothing.
     */
    method AddApproval(recordId: string, approver: string) returns (found: bool)
      requires Valid()
      modifies this
      ensures Valid()
      ensures found <==> old(Get(recordId)).Some?
      ensures !found ==> records == old(records)
      ensures found ==>
                var k := RecordIndex(old(records), recordId);
                && records == old(records)[k := old(records)[k].(obtainedApprovals :=
                                                                 WithApproval(old(records)[k].obtainedApprovals, approver))]
                && (approver in old(records)[k].obtainedApprovals ==> records == old(records))
      ensures Preserves(old(records), records)
      ensures promptIndex == old(promptIndex) && agentIndex == old(agentIndex)
      ensures counter == old(counter) && callbacks == old(callbacks) && deliveries == old(deliveries)
    {
      var k := RecordIndex(records, recordId);
      if k == |records| {
        return false;
      }
      var r := records[k];
      if approver !in r.obtainedApprovals {
        var updated := r.(obtainedApprovals := r.obtainedApprovals + [approver]);
        ReplaceKeepsValid(records, counter, promptIndex, agentIndex, digest, k, updated);
        records := records[k := updated];
      } else {
        assert records[k := r] == records;
      }
      return true;
    }

    /** `get_records_by_prompt`: every record logged for the prompt, in logging order. */
    function RecordsByPrompt(promptId: string): (r: seq<DecisionRecord>)
      requires Valid()
      reads this
      ensures r == RecordsOf(records, ByPrompt, promptId)
      ensures forall x :: x in r <==> x in records && x.promptId == promptId
    {
      ResolveIndexed(records, ByPrompt, promptId);
      RecordsOfMembers(records, ByPrompt, promptId);
      Resolve(records, Filed(promptIndex, promptId))
    }

    /** `get_records_by_agent`: every record the agent logged, in logging order. */
    function RecordsByAgent(agentName: string): (r: seq<DecisionRecord>)
      requires Valid()
      reads this
      ensures r == RecordsOf(records, ByAgent, agentName)
      ensures forall x :: x in r <==> x in records && x.agentName == agentName
    {
      ResolveIndexed(records, ByAgent, agentName);
      RecordsOfMembers(records, ByAgent, agentName);
      Resolve(records, Filed(agentIndex, agentName))
    }

    /** `get_pending_approvals`: the records still missing a required approval, in logging order. */
    method PendingApprovals() returns (pending: seq<DecisionRecord>)
      ensures pending == Where(records, AwaitingApproval)
      ensures forall x :: x in pending <==> x in records && AwaitingApproval(x)
    {
      pending := [];
      for i := 0 to |records|
        invariant pending == Where(records[..i], AwaitingApproval)
      {
        assert records[..i + 1][..i] == records[..i];
        var r := records[i];
        if r.requiredApprovals != [] {
          var missing := exists a :: a in r.requiredApprovals && a !in r.obtainedApprovals;
          if missing {
            pending := pending + [r];
          }
        }
      }
      assert records[..|records|] == records;
    }

    /** `get_escalated_decisions`: the records with a non-empty escalation target, in logging order. */
    function EscalatedDecisions(): (r: seq<DecisionRecord>)
      reads this
      ensures forall x :: x in r <==> x in records && x.escalatedTo.Some? && x.escalatedTo.value != ""
    {
      Where(records, Escalated)
    }

    /** `verify_integrity`: false for an unknown id; under the invariant, true for every logged id. */
    function VerifyIntegrity(recordId: string): (ok: bool)
      reads this
      ensures ok ==> Get(recordId).Some? && Get(recordId).value.Intact(digest)
      ensures Valid() ==> (ok <==> Get(recordId).Some?)
    {
      var r := Get(recordId);
      r.Some? && r.value.hash == r.value.ComputeHash(digest)
    }

    /**
     * `generate_report`: the report over the records passing the filters,
     * counting decision types and confidence tiers in one pass.
     */
    method GenerateReport(start: Option<int>, end: Option<int>, agent: Option<string>) returns (report: AuditReport)
      ensures report == ReportOf(Selected(records, start, end, agent))
    {
      var rs := Selected(records, start, end, agent);
      if |rs| == 0 {
        return NoDecisions;
      }
      var byType, byConfidence := CountKinds(rs);
      var average := SumReals(Scores(rs)) / (|rs| as real);
      report := Report(|rs|, Earliest(rs), Latest(rs), byType, byConfidence, average,
                       |Where(rs, CountedPending)|, |Where(rs, Escalated)|, Dedup(AgentNames(rs)));
    }

    /** The loop of `generate_report` that counts decision types and confidence tiers. */
    static method CountKinds(rs: seq<DecisionRecord>) returns (byType: seq<(string, int)>, byConfidence: seq<(string, int)>)
      ensures byType == Tally(TypeValues(rs)) && byConfidence == Tally(TierValues(rs))
    {
      byType, byConfidence := [], [];
      for i := 0 to |rs|
        invariant byType == Tally(TypeValues(rs[..i]))
        invariant byConfidence == Tally(TierValues(rs[..i]))
      {
        CountStep(rs, i);
        byType := Bump(byType, rs[i].decisionType.Value());
        byConfidence := Bump(byConfidence, rs[i].confidence.Value());
      }
      assert rs[..|rs|] == rs;
    }

    /** `register_callback`: the callback is notified of every later record. */
    method RegisterCallback(cb: Callback)
      requires Valid()
      modifies this
      ensures Valid()
      ensures callbacks == old(callbacks) + [cb]
      ensures records == old(records) && promptIndex == old(promptIndex) && agentIndex == old(agentIndex)
      ensures counter == old(counter) && deliveries == old(deliveries)
    {
      callbacks := callbacks + [cb];
    }
  }
}
