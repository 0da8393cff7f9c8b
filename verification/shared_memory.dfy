/**
 * The shared state store every component writes to: an id-generating table
 * of memory entries with filtered, newest-first queries, and the tables of
 * company goals and business constraints. Time is an integer count of
 * seconds passed in as `now`; the date text that goes into entry ids is
 * passed in as `day` (eight characters, as `strftime('%Y%m%d')` gives).
 */
module SharedMemory {
  import opened Common
  import opened Text
  import opened Table
  import opened BaseAgent
  import opened Executive

  datatype MemoryType = GoalEntry | PolicyEntry | ConstraintEntry | AgentOutputEntry | DecisionEntry
                      | AlertEntry | ContextEntry
  {
    function Value(): string {
      match this
      case GoalEntry => "goal"
      case PolicyEntry => "policy"
      case ConstraintEntry => "constraint"
      case AgentOutputEntry => "agent_output"
      case DecisionEntry => "decision"
      case AlertEntry => "alert"
      case ContextEntry => "context"
    }
  }

  datatype Priority = Low | Medium | High | Critical {
    function Value(): string {
      match this
      case Low => "low"
      case Medium => "medium"
      case High => "high"
      case Critical => "critical"
    }
  }

  datatype KeyResult = KeyResult(description: string, target: real, current: real)

  datatype CompanyGoal = CompanyGoal(
    id: string,
    description: string,
    targetValue: real,
    currentValue: real,
    unit: string,
    deadline: int,
    owner: string,
    status: string,
    associatedAgents: seq<string>,
    keyResults: seq<KeyResult>)

  datatype Constraint = Constraint(
    id: string,
    category: string,
    description: string,
    limitValue: real,
    currentUsage: real,
    unit: string,
    hardLimit: bool,
    owner: string)

  /** What an entry carries: the payloads the core itself stores, or free-form fields. */
  datatype Content =
    | GoalContent(goalId: string, description: string, target: real, current: real, unit: string,
                  status: string, deadline: int)
    | ConstraintContent(constraintId: string, category: string, description: string, limit: real,
                        current: real, unit: string, hardLimit: bool)
    | AlertContent(alertType: string, constraintId: string, limit: real, attempted: real)
    | AgentOutputContent(output: AgentOutput)
    | ExecutiveContent(executive: ExecutiveOutput)
    | Fields(fields: map<string, string>)

  datatype MemoryEntry = MemoryEntry(
    id: string,
    kind: MemoryType,
    source: string,
    content: Content,
    timestamp: int,
    priority: Priority,
    tags: seq<string>,
    references: seq<string>,
    expiresAt: Option<int>)

  /** A registered callback: its name and whether it raises on a given entry. */
  datatype Callback = Callback(name: string, raises: MemoryEntry -> bool)

  /** An entry id: `"MEM-" + day + "-" + f"{counter:06d}"`. */
  function MemIdText(day: string, counter: nat): string {
    Stamp("MEM-", day, counter, 6)
  }

  /** `expires_in_hours` is truthy only when given and non-zero. */
  function ExpiryOf(expiresInHours: Option<int>, now: int): (r: Option<int>)
    ensures r.Some? <==> expiresInHours.Some? && expiresInHours.value != 0
    ensures r.Some? ==> r.value == now + expiresInHours.value * 3600
  {
    if expiresInHours.Some? && expiresInHours.value != 0 then Some(now + expiresInHours.value * 3600) else None
  }

  /** An entry with an expiry time earlier than `now` has expired. */
  predicate Expired(e: MemoryEntry, now: int) {
    e.expiresAt.Some? && e.expiresAt.value < now
  }

  /** The position of the first entry with id `id`, or `|es|` when there is none. */
  function FindEntry(es: seq<MemoryEntry>, id: string): (k: nat)
    ensures k <= |es|
    ensures k < |es| ==> es[k].id == id
    ensures forall j :: 0 <= j < k ==> es[j].id != id
  {
    if es == [] then 0 else if es[0].id == id then 0 else 1 + FindEntry(es[1..], id)
  }

  /** The callbacks' notifications about one entry, in registration order: name, entry id, whether it raised. */
  function Notifications(cbs: seq<Callback>, e: MemoryEntry): (ns: seq<(string, string, bool)>)
    ensures |ns| == |cbs|
    ensures forall i :: 0 <= i < |cbs| ==> ns[i] == (cbs[i].name, e.id, cbs[i].raises(e))
  {
    if cbs == [] then []
    else
      var prev := cbs[..|cbs| - 1];
      var ns := Notifications(prev, e);
      assert forall i :: 0 <= i < |prev| ==> prev[i] == cbs[i];
      ns + [(cbs[|cbs| - 1].name, e.id, cbs[|cbs| - 1].raises(e))]
  }

  /** The callbacks' notifications about each of `es` in turn. */
  function NotificationsOf(cbs: seq<Callback>, es: seq<MemoryEntry>): seq<(string, string, bool)> {
    if es == [] then []
    else NotificationsOf(cbs, es[..|es| - 1]) + Notifications(cbs, es[|es| - 1])
  }

  /** Notifying about one more entry extends the notifications of the earlier ones. */
  lemma NotificationsOfSnoc(cbs: seq<Callback>, es: seq<MemoryEntry>, e: MemoryEntry)
    ensures NotificationsOf(cbs, es + [e]) == NotificationsOf(cbs, es) + Notifications(cbs, e)
  {
    assert (es + [e])[..|es|] == es;
  }

  /** The notifications about a single entry. */
  lemma NotificationsOfSingle(cbs: seq<Callback>, e: MemoryEntry)
    ensures NotificationsOf(cbs, [e]) == Notifications(cbs, e)
  {
    NotificationsOfSnoc(cbs, [], e);
    assert [] + [e] == [e];
  }

  /** The notifications about two runs of entries are those about the first, then those about the second. */
  lemma {:induction false} NotificationsOfConcat(cbs: seq<Callback>, a: seq<MemoryEntry>, b: seq<MemoryEntry>)
    ensures NotificationsOf(cbs, a + b) == NotificationsOf(cbs, a) + NotificationsOf(cbs, b)
  {
    if b == [] {
      AppendEmpty(a);
      AppendEmpty(NotificationsOf(cbs, a));
    } else {
      var init, x := b[..|b| - 1], b[|b| - 1];
      assert b == init + [x];
      AppendAssoc(a, init, [x]);
      NotificationsOfConcat(cbs, a, init);
      NotificationsOfSnoc(cbs, a + init, x);
      NotificationsOfSnoc(cbs, init, x);
      AppendAssoc(NotificationsOf(cbs, a), NotificationsOf(cbs, init), Notifications(cbs, x));
    }
  }

  // ----- Query filters -----

  /** The filters of `query`; an absent filter, an empty source and an empty tag list do not filter. */
  datatype QueryFilter = QueryFilter(
    kind: Option<MemoryType>,
    source: Option<string>,
    tags: Option<seq<string>>,
    minPriority: Option<Priority>,
    since: Option<int>)

  /**
   * Whether `query` keeps the entry: not expired, and passing every given
   * filter; all requested tags must be present, and the priority filter
   * compares the priorities' value strings as text.
   */
  predicate Matches(e: MemoryEntry, f: QueryFilter, now: int) {
    && !Expired(e, now)
    && (f.kind.None? || e.kind == f.kind.value)
    && (f.source.None? || f.source.value == "" || e.source == f.source.value)
    && (f.tags.None? || forall t :: t in f.tags.value ==> t in e.tags)
    && (f.minPriority.None? || !StrLess(e.priority.Value(), f.minPriority.value.Value()))
    && (f.since.None? || e.timestamp >= f.since.value)
  }

  /** The matching entries in table order. */
  function MatchingOf(es: seq<MemoryEntry>, f: QueryFilter, now: int): (r: seq<MemoryEntry>)
    ensures forall e :: e in r <==> e in es && Matches(e, f, now)
  {
    if es == [] then []
    else
      var last := es[|es| - 1];
      assert es == es[..|es| - 1] + [last];
      MatchingOf(es[..|es| - 1], f, now) + (if Matches(last, f, now) then [last] else [])
  }

  /** Ordered by timestamp, newest first. */
  predicate NewestFirst(es: seq<MemoryEntry>) {
    forall i, j {:trigger TimeAt(es, i), TimeAt(es, j)} :: 0 <= i < j < |es| ==> TimeAt(es, i) >= TimeAt(es, j)
  }

  /** The timestamp at position `i` (0 outside the list). */
  function TimeAt(es: seq<MemoryEntry>, i: int): int {
    if 0 <= i < |es| then es[i].timestamp else 0
  }

  /** Inserts `e` after every entry at least as new, which keeps equal timestamps in arrival order. */
  function InsertNewestFirst(sorted: seq<MemoryEntry>, e: MemoryEntry): (r: seq<MemoryEntry>)
    ensures multiset(r) == multiset(sorted) + multiset{e}
  {
    if sorted == [] then [e]
    else if sorted[0].timestamp >= e.timestamp then
      assert sorted == [sorted[0]] + sorted[1..];
      [sorted[0]] + InsertNewestFirst(sorted[1..], e)
    else [e] + sorted
  }

  /** Inserting into a newest-first list keeps it newest first. */
  lemma {:induction false} InsertKeepsNewestFirst(sorted: seq<MemoryEntry>, e: MemoryEntry)
    requires NewestFirst(sorted)
    ensures NewestFirst(InsertNewestFirst(sorted, e))
  {
    var r := InsertNewestFirst(sorted, e);
    if sorted != [] && sorted[0].timestamp >= e.timestamp {
      var tail := sorted[1..];
      var rest := InsertNewestFirst(tail, e);
      forall i, j | 0 <= i < j < |tail| ensures TimeAt(tail, i) >= TimeAt(tail, j) {
        assert TimeAt(tail, i) == TimeAt(sorted, i + 1) && TimeAt(tail, j) == TimeAt(sorted, j + 1);
      }
      InsertKeepsNewestFirst(tail, e);
      forall i | 0 <= i < |tail| ensures tail[i].timestamp <= sorted[0].timestamp {
        assert TimeAt(sorted, 0) >= TimeAt(sorted, i + 1);
      }
      InsertBounded(tail, e, sorted[0].timestamp);
      assert r == [sorted[0]] + rest;
      forall i, j | 0 <= i < j < |r| ensures TimeAt(r, i) >= TimeAt(r, j) {
        assert TimeAt(r, j) == rest[j - 1].timestamp;
        if 0 < i {
          assert TimeAt(r, i) == TimeAt(rest, i - 1) && TimeAt(r, j) == TimeAt(rest, j - 1);
        }
      }
    } else {
      assert r == [e] + sorted;
      forall i, j | 0 <= i < j < |r| ensures TimeAt(r, i) >= TimeAt(r, j) {
        assert TimeAt(r, j) == TimeAt(sorted, j - 1);
        if 0 < i {
          assert TimeAt(r, i) == TimeAt(sorted, i - 1);
        } else if 1 < j {
          assert TimeAt(sorted, 0) >= TimeAt(sorted, j - 1);
        }
      }
    }
  }

  /** No inserted entry is newer than a bound that the list and the new entry respect. */
  lemma {:induction false} InsertBounded(sorted: seq<MemoryEntry>, e: MemoryEntry, t: int)
    requires forall i :: 0 <= i < |sorted| ==> sorted[i].timestamp <= t
    requires e.timestamp <= t
    ensures forall i :: 0 <= i < |InsertNewestFirst(sorted, e)| ==> InsertNewestFirst(sorted, e)[i].timestamp <= t
  {
    var r := InsertNewestFirst(sorted, e);
    if sorted != [] && sorted[0].timestamp >= e.timestamp {
      var rest := InsertNewestFirst(sorted[1..], e);
      InsertBounded(sorted[1..], e, t);
      assert r == [sorted[0]] + rest;
      forall i | 0 < i < |r| ensures r[i].timestamp <= t {
        assert r[i] == rest[i - 1] && rest[i - 1].timestamp <= t;
      }
    } else {
      assert r == [e] + sorted;
      forall i | 0 < i < |r| ensures r[i].timestamp <= t {
        assert r[i] == sorted[i - 1];
      }
    }
  }

  /** Python's stable `sorted(..., key=timestamp, reverse=True)`: a reordering, newest first. */
  function SortNewestFirst(es: seq<MemoryEntry>): (r: seq<MemoryEntry>)
    ensures multiset(r) == multiset(es)
    ensures NewestFirst(r)
  {
    if es == [] then []
    else
      var last := es[|es| - 1];
      assert es == es[..|es| - 1] + [last];
      var sorted := SortNewestFirst(es[..|es| - 1]);
      InsertKeepsNewestFirst(sorted, last);
      InsertNewestFirst(sorted, last)
  }

  /** `[e]` when `e` is stamped `t`, otherwise nothing. */
  function StampedAs(e: MemoryEntry, t: int): seq<MemoryEntry> {
    if e.timestamp == t then [e] else []
  }

  /** The entries stamped `t`, in list order. */
  function WithTime(es: seq<MemoryEntry>, t: int): seq<MemoryEntry> {
    if es == [] then [] else StampedAs(es[0], t) + WithTime(es[1..], t)
  }

  lemma {:induction false} WithTimeConcat(a: seq<MemoryEntry>, b: seq<MemoryEntry>, t: int)
    ensures WithTime(a + b, t) == WithTime(a, t) + WithTime(b, t)
  {
    if a == [] {
      assert a + b == b;
    } else {
      assert (a + b)[0] == a[0];
      assert (a + b)[1..] == a[1..] + b;
      WithTimeConcat(a[1..], b, t);
      calc {
        WithTime(a + b, t);
        StampedAs(a[0], t) + WithTime(a[1..] + b, t);
        StampedAs(a[0], t) + (WithTime(a[1..], t) + WithTime(b, t));
        { AppendAssoc(StampedAs(a[0], t), WithTime(a[1..], t), WithTime(b, t)); }
        (StampedAs(a[0], t) + WithTime(a[1..], t)) + WithTime(b, t);
        WithTime(a, t) + WithTime(b, t);
      }
    }
  }

  lemma {:induction false} WithTimeNone(es: seq<MemoryEntry>, t: int)
    requires forall i :: 0 <= i < |es| ==> es[i].timestamp < t
    ensures WithTime(es, t) == []
  {
    if es != [] {
      WithTimeNone(es[1..], t);
    }
  }

  lemma WithTimeCons(x: MemoryEntry, rest: seq<MemoryEntry>, t: int)
    ensures WithTime([x] + rest, t) == StampedAs(x, t) + WithTime(rest, t)
  {
    assert ([x] + rest)[1..] == rest;
  }

  /** The tail of a newest-first list is newest-first too. */
  lemma NewestFirstTail(sorted: seq<MemoryEntry>)
    requires NewestFirst(sorted) && sorted != []
    ensures NewestFirst(sorted[1..])
  {
    var tail := sorted[1..];
    forall i, j | 0 <= i < j < |tail| ensures TimeAt(tail, i) >= TimeAt(tail, j) {
      assert TimeAt(tail, i) == TimeAt(sorted, i + 1) && TimeAt(tail, j) == TimeAt(sorted, j + 1);
    }
  }

  /** No entry of a newest-first list is newer than its head. */
  lemma NewestFirstHead(sorted: seq<MemoryEntry>)
    requires NewestFirst(sorted) && sorted != []
    ensures forall i :: 0 <= i < |sorted| ==> sorted[i].timestamp <= sorted[0].timestamp
  {
    forall i | 0 <= i < |sorted| ensures sorted[i].timestamp <= sorted[0].timestamp {
      assert TimeAt(sorted, 0) >= TimeAt(sorted, i);
    }
  }

  /** One step of `InsertWithTime`: `e` goes behind a head that is no older. */
  lemma InsertBehindHead(sorted: seq<MemoryEntry>, e: MemoryEntry, t: int)
    requires sorted != [] && sorted[0].timestamp >= e.timestamp
    requires WithTime(InsertNewestFirst(sorted[1..], e), t) == WithTime(sorted[1..], t) + StampedAs(e, t)
    ensures WithTime(InsertNewestFirst(sorted, e), t) == WithTime(sorted, t) + StampedAs(e, t)
  {
    var head, tail := sorted[0], sorted[1..];
    var rest := InsertNewestFirst(tail, e);
    assert WithTime(InsertNewestFirst(sorted, e), t) == StampedAs(head, t) + WithTime(rest, t) by {
      assert InsertNewestFirst(sorted, e) == [head] + rest;
      WithTimeCons(head, rest, t);
    }
    assert WithTime(sorted, t) == StampedAs(head, t) + WithTime(tail, t);
    AppendAssoc(StampedAs(head, t), WithTime(tail, t), StampedAs(e, t));
  }

  /** Inserting `e` puts it after every entry stamped like it. */
  lemma {:induction false} InsertWithTime(sorted: seq<MemoryEntry>, e: MemoryEntry, t: int)
    requires NewestFirst(sorted)
    ensures WithTime(InsertNewestFirst(sorted, e), t) == WithTime(sorted, t) + StampedAs(e, t)
  {
    if sorted == [] {
      WithTimeCons(e, [], t);
    } else if sorted[0].timestamp >= e.timestamp {
      NewestFirstTail(sorted);
      InsertWithTime(sorted[1..], e, t);
      InsertBehindHead(sorted, e, t);
    } else {
      WithTimeCons(e, sorted, t);
      if e.timestamp == t {
        NewestFirstHead(sorted);
        WithTimeNone(sorted, t);
      }
    }
  }

  /**
   * The sort is stable: the entries stamped with any one time come out in
   * the order they went in.
   */
  lemma WithTimeSnoc(es: seq<MemoryEntry>, last: MemoryEntry, t: int)
    ensures WithTime(es + [last], t) == WithTime(es, t) + StampedAs(last, t)
  {
    WithTimeConcat(es, [last], t);
    WithTimeCons(last, [], t);
    assert StampedAs(last, t) + [] == StampedAs(last, t);
  }

  lemma SortNewestFirstStep(es: seq<MemoryEntry>)
    requires es != []
    ensures SortNewestFirst(es) == InsertNewestFirst(SortNewestFirst(es[..|es| - 1]), es[|es| - 1])
  {
  }

  lemma {:induction false} SortNewestFirstStable(es: seq<MemoryEntry>, t: int)
    ensures WithTime(SortNewestFirst(es), t) == WithTime(es, t)
  {
    if es != [] {
      var prefix, last := es[..|es| - 1], es[|es| - 1];
      assert es == prefix + [last];
      SortNewestFirstStep(es);
      SortNewestFirstStable(prefix, t);
      InsertWithTime(SortNewestFirst(prefix), last, t);
      WithTimeSnoc(prefix, last, t);
    }
  }


  /** Priority value strings in text order: "critical" < "high" < "low" < "medium". */
  lemma PriorityTextOrder()
    ensures StrLess(Critical.Value(), High.Value())
    ensures StrLess(High.Value(), Low.Value())
    ensures StrLess(Low.Value(), Medium.Value())
  {
    assert StrLess("critical", "high");
    assert StrLess("high", "low");
    assert StrLess("low", "medium");
  }

  /**
   * Asking for at least HIGH drops CRITICAL entries and keeps LOW ones,
   * because the filter compares the value strings as text.
   */
  lemma MinPriorityHighDropsCritical(e: MemoryEntry, f: QueryFilter, now: int)
    requires f == QueryFilter(None, None, None, Some(High), None) && !Expired(e, now)
    ensures e.priority == Critical ==> !Matches(e, f, now)
    ensures e.priority == Low ==> Matches(e, f, now)
  {
    PriorityTextOrder();
    if e.priority == Low {
      assert !StrLess("low", "high");
    }
  }

  // ----- Goal and constraint tables -----

  function ActiveOf(gs: seq<CompanyGoal>): (r: seq<CompanyGoal>)
    ensures forall g :: g in r <==> g in gs && g.status == "active"
  {
    if gs == [] then []
    else
      var last := gs[|gs| - 1];
      assert gs == gs[..|gs| - 1] + [last];
      ActiveOf(gs[..|gs| - 1]) + (if last.status == "active" then [last] else [])
  }

  function InCategory(cs: seq<Constraint>, category: string): (r: seq<Constraint>)
    ensures forall c :: c in r <==> c in cs && c.category == category
  {
    if cs == [] then []
    else
      var last := cs[|cs| - 1];
      assert cs == cs[..|cs| - 1] + [last];
      InCategory(cs[..|cs| - 1], category) + (if last.category == category then [last] else [])
  }

  /** The entries that have not expired at `now`, in table order. */
  function Unexpired(es: seq<MemoryEntry>, now: int): (r: seq<MemoryEntry>)
    ensures |r| <= |es|
    ensures forall e :: e in r <==> e in es && !Expired(e, now)
  {
    if es == [] then []
    else
      var last := es[|es| - 1];
      assert es == es[..|es| - 1] + [last];
      Unexpired(es[..|es| - 1], now) + (if Expired(last, now) then [] else [last])
  }

  /** No two entries share an id. */
  predicate DistinctIds(es: seq<MemoryEntry>) {
    forall i, j {:trigger IdAt(es, i), IdAt(es, j)} :: 0 <= i < j < |es| ==> IdAt(es, i) != IdAt(es, j)
  }

  /** The id of the entry at position `i` (empty outside the table). */
  function IdAt(es: seq<MemoryEntry>, i: int): string {
    if 0 <= i < |es| then es[i].id else ""
  }

  /** No entry carries an id that a counter value above `counter` would produce. */
  ghost predicate NoneIssuedAfter(es: seq<MemoryEntry>, counter: nat) {
    forall d, n :: |d| == 8 && n > counter ==> Unissued(es, d, n)
  }

  /** No entry carries the id made from day `d` and counter value `n`. */
  ghost predicate Unissued(es: seq<MemoryEntry>, d: string, n: nat) {
    forall e :: e in es ==> e.id != MemIdText(d, n)
  }

  /** Ids made from a larger counter value than any issued one are new. */
  lemma MemIdFresh(es: seq<MemoryEntry>, counter: nat, day: string)
    requires NoneIssuedAfter(es, counter) && |day| == 8
    ensures forall e :: e in es ==> e.id != MemIdText(day, counter + 1)
  {
    assert Unissued(es, day, counter + 1);
  }

  /** An id made from counter value `n` is none of those made from larger values. */
  lemma MemIdAhead(day: string, n: nat)
    requires |day| == 8
    ensures forall d, m :: |d| == 8 && m > n ==> MemIdText(day, n) != MemIdText(d, m)
  {
    forall d, m | |d| == 8 && m > n ensures MemIdText(day, n) != MemIdText(d, m) {
      if MemIdText(day, n) == MemIdText(d, m) {
        StampInjective("MEM-", day, n, d, m, 6);
      }
    }
  }

  /** Appending an entry whose id is new keeps the ids unique, and a lookup finds it last. */
  lemma AppendDistinct(es: seq<MemoryEntry>, entry: MemoryEntry)
    requires DistinctIds(es)
    requires forall e :: e in es ==> e.id != entry.id
    ensures DistinctIds(es + [entry])
    ensures FindEntry(es + [entry], entry.id) == |es|
  {
    var r := es + [entry];
    forall i, j | 0 <= i < j < |r| ensures IdAt(r, i) != IdAt(r, j) {
      AppendIdAt(es, entry, i);
      AppendIdAt(es, entry, j);
    }
    AppendFind(es, entry);
  }

  lemma AppendIdAt(es: seq<MemoryEntry>, entry: MemoryEntry, i: nat)
    requires i <= |es|
    ensures IdAt(es + [entry], i) == if i < |es| then IdAt(es, i) else entry.id
    ensures i < |es| ==> es[i] in es
  {
  }

  lemma AppendFind(es: seq<MemoryEntry>, entry: MemoryEntry)
    requires forall e :: e in es ==> e.id != entry.id
    ensures FindEntry(es + [entry], entry.id) == |es|
  {
    var r := es + [entry];
    assert forall i :: 0 <= i < |es| ==> r[i] == es[i] && es[i] in es;
    assert r[|es|] == entry;
  }

  /** Appending an entry made from the next counter value keeps every id ahead of the counter. */
  lemma AppendIssued(es: seq<MemoryEntry>, counter: nat, day: string, entry: MemoryEntry)
    requires NoneIssuedAfter(es, counter)
    requires |day| == 8 && entry.id == MemIdText(day, counter + 1)
    ensures NoneIssuedAfter(es + [entry], counter + 1)
  {
    MemIdAhead(day, counter + 1);
    forall d, n | |d| == 8 && n > counter + 1 ensures Unissued(es + [entry], d, n) {
      assert Unissued(es, d, n);
      assert forall e :: e in es + [entry] ==> e in es || e == entry;
    }
  }

  /**
   * The id made from the next counter value is fresh, and appending an entry
   * under it keeps the ids unique and ahead of the counter; a lookup then
   * finds the new entry.
   */
  lemma FreshIdAppend(es: seq<MemoryEntry>, counter: nat, day: string, entry: MemoryEntry)
    requires DistinctIds(es) && NoneIssuedAfter(es, counter)
    requires |day| == 8 && entry.id == MemIdText(day, counter + 1)
    ensures forall e :: e in es ==> e.id != entry.id
    ensures DistinctIds(es + [entry]) && NoneIssuedAfter(es + [entry], counter + 1)
    ensures FindEntry(es + [entry], entry.id) == |es|
  {
    MemIdFresh(es, counter, day);
    AppendDistinct(es, entry);
    AppendIssued(es, counter, day, entry);
  }

  /** Dropping expired entries keeps the ids unique. */
  lemma {:induction false} UnexpiredDistinctIds(es: seq<MemoryEntry>, now: int)
    requires DistinctIds(es)
    ensures DistinctIds(Unexpired(es, now))
  {
    if es != [] {
      var prev := es[..|es| - 1];
      var last := es[|es| - 1];
      assert DistinctIds(prev) by {
        assert forall a {:trigger IdAt(prev, a)} :: 0 <= a < |prev| ==> IdAt(prev, a) == IdAt(es, a);
      }
      UnexpiredDistinctIds(prev, now);
      var u := Unexpired(prev, now);
      forall x | x in u ensures x.id != last.id {
        var i :| 0 <= i < |prev| && prev[i] == x;
        assert IdAt(es, i) == x.id && IdAt(es, |es| - 1) == last.id;
      }
      if !Expired(last, now) {
        var r := u + [last];
        forall i, j | 0 <= i < j < |r| ensures IdAt(r, i) != IdAt(r, j) {
          assert IdAt(r, i) == IdAt(u, i) && u[i] in u;
          if j < |u| {
            assert IdAt(r, j) == IdAt(u, j);
          } else {
            assert IdAt(r, j) == last.id;
          }
        }
        assert Unexpired(es, now) == r;
      } else {
        assert Unexpired(es, now) == u;
      }
    }
  }

  /** Dropping entries keeps every id ahead of the counter. */
  lemma UnexpiredIssued(es: seq<MemoryEntry>, counter: nat, now: int)
    requires NoneIssuedAfter(es, counter)
    ensures NoneIssuedAfter(Unexpired(es, now), counter)
  {
    forall d, n | |d| == 8 && n > counter ensures Unissued(Unexpired(es, now), d, n) {
      assert Unissued(es, d, n);
    }
  }

  /** The content of a goal's entry. */
  function GoalContentOf(g: CompanyGoal): Content {
    GoalContent(g.id, g.description, g.targetValue, g.currentValue, g.unit, g.status, g.deadline)
  }

  /** The content of a constraint's entry. */
  function ConstraintContentOf(c: Constraint): Content {
    ConstraintContent(c.id, c.category, c.description, c.limitValue, c.currentUsage, c.unit, c.hardLimit)
  }

  /** A constraint's entry is HIGH priority for a hard limit and MEDIUM otherwise. */
  function ConstraintPriority(c: Constraint): Priority {
    if c.hardLimit then High else Medium
  }

  /** The GOAL entry `add_goal` records, with the counter value its id is made from. */
  function GoalEntryOf(g: CompanyGoal, n: nat, now: int, day: string): MemoryEntry {
    MemoryEntry(MemIdText(day, n), GoalEntry, "system", GoalContentOf(g), now, High, ["goal", g.status], [], None)
  }

  /** The CONSTRAINT entry `add_constraint` records, with the counter value its id is made from. */
  function ConstraintEntryOf(c: Constraint, n: nat, now: int, day: string): MemoryEntry {
    MemoryEntry(MemIdText(day, n), ConstraintEntry, "system", ConstraintContentOf(c), now, ConstraintPriority(c),
                ["constraint", c.category], [], None)
  }

  /** Whether a usage breaks the constraint: only a hard limit can be broken, and only by exceeding it. */
  predicate Violates(c: Constraint, newUsage: real) {
    c.hardLimit && newUsage > c.limitValue
  }

  /** The central store. */
  class SharedMemory {
    var entries: seq<MemoryEntry>
    var goals: seq<(string, CompanyGoal)>
    var constraints: seq<(string, Constraint)>
    var callbacks: seq<Callback>
    var counter: nat
    /** Every callback invocation so far: callback name, entry id, whether it raised. */
    ghost var deliveries: seq<(string, string, bool)>

    /**
     * Entry ids are unique and none of them is an id the counter has yet to
     * issue; goal and constraint ids are unique.
     */
    ghost predicate Valid()
      reads this
    {
      && DistinctIds(entries) && NoneIssuedAfter(entries, counter)
      && UniqueKeys(goals) && UniqueKeys(constraints)
    }

    constructor ()
      ensures Valid()
      ensures entries == [] && goals == [] && constraints == [] && callbacks == [] && counter == 0
      ensures deliveries == []
    {
      entries, goals, constraints, callbacks, counter := [], [], [], [], 0;
      deliveries := [];
    }

    /** `get`: the entry with this id, if any. */
    function Get(id: string): (r: Option<MemoryEntry>)
      reads this
      ensures r.Some? ==> r.value in entries && r.value.id == id
      ensures r.None? <==> forall e :: e in entries ==> e.id != id
    {
      var k := FindEntry(entries, id);
      if k < |entries| then Some(entries[k]) else None
    }

    /**
     * `store`: bumps the counter once, appends the new entry under a fresh
     * id, notifies every callback in order (a raising callback changes
     * nothing) and returns the id.
     */
    method Store(kind: MemoryType, source: string, content: Content, priority: Priority,
                 tags: Option<seq<string>>, references: Option<seq<string>>, expiresInHours: Option<int>,
                 now: int, day: string) returns (id: string)
      requires Valid() && |day| == 8
      modifies this
      ensures Valid()
      ensures counter == old(counter) + 1 && id == MemIdText(day, counter)
      ensures forall e :: e in old(entries) ==> e.id != id
      ensures entries == old(entries) + [MemoryEntry(id, kind, source, content, now, priority,
                                                     tags.GetOr([]), references.GetOr([]),
                                                     ExpiryOf(expiresInHours, now))]
      ensures Get(id) == Some(entries[|entries| - 1])
      ensures goals == old(goals) && constraints == old(constraints) && callbacks == old(callbacks)
      ensures deliveries == old(deliveries) + Notifications(callbacks, entries[|entries| - 1])
    {
      id := MemIdText(day, counter + 1);
      var expires := None;
      if expiresInHours.Some? && expiresInHours.value != 0 {
        expires := Some(now + expiresInHours.value * 3600);
      }
      var entry := MemoryEntry(id, kind, source, content, now, priority,
                               tags.GetOr([]), references.GetOr([]), expires);
      assert expires == ExpiryOf(expiresInHours, now);
      FreshIdAppend(entries, counter, day, entry);
      Commit(entries + [entry], counter + 1);
      Notify(entry);
    }

    /** Sets the entries and the counter; nothing else changes. */
    method Commit(es: seq<MemoryEntry>, n: nat)
      modifies this
      ensures entries == es && counter == n
      ensures goals == old(goals) && constraints == old(constraints) && callbacks == old(callbacks)
      ensures deliveries == old(deliveries)
    {
      entries, counter := es, n;
    }

    /** Hands the entry to every callback in registration order; a callback that raises is passed over. */
    method Notify(entry: MemoryEntry)
      modifies this
      ensures deliveries == old(deliveries) + Notifications(callbacks, entry)
      ensures entries == old(entries) && goals == old(goals) && constraints == old(constraints)
      ensures callbacks == old(callbacks) && counter == old(counter)
    {
      for k := 0 to |callbacks|
        invariant deliveries == old(deliveries) + Notifications(callbacks[..k], entry)
      {
        assert callbacks[..k + 1][..k] == callbacks[..k];
        ghost var raised := callbacks[k].raises(entry);
        deliveries := deliveries + [(callbacks[k].name, entry.id, raised)];
      }
      assert callbacks[..|callbacks|] == callbacks;
    }

    /**
     * `query`: exactly the unexpired entries passing every filter, as a
     * reordering of the table's matches, newest first.
     */
    method Query(f: QueryFilter, now: int) returns (results: seq<MemoryEntry>)
      ensures multiset(results) == multiset(MatchingOf(entries, f, now))
      ensures forall e :: e in results <==> e in entries && Matches(e, f, now)
      ensures NewestFirst(results)
      ensures forall t :: WithTime(results, t) == WithTime(MatchingOf(entries, f, now), t)
    {
      var found: seq<MemoryEntry> := [];
      for i := 0 to |entries|
        invariant found == MatchingOf(entries[..i], f, now)
      {
        assert entries[..i + 1][..i] == entries[..i];
        var e := entries[i];
        if Matches(e, f, now) {
          found := found + [e];
        }
      }
      assert entries[..|entries|] == entries;
      results := SortNewestFirst(found);
      assert forall e :: e in results <==> e in multiset(results);
      forall t ensures WithTime(results, t) == WithTime(found, t) {
        SortNewestFirstStable(found, t);
      }
    }

    /** `add_goal`: inserts or replaces the goal under its id and records one HIGH goal entry. */
    method AddGoal(goal: CompanyGoal, now: int, day: string)
      requires Valid() && |day| == 8
      modifies this
      ensures Valid()
      ensures goals == Upsert(old(goals), goal.id, goal)
      ensures counter == old(counter) + 1
      ensures entries == old(entries) + [GoalEntryOf(goal, counter, now, day)]
      ensures constraints == old(constraints) && callbacks == old(callbacks)
      ensures deliveries == old(deliveries) + Notifications(callbacks, GoalEntryOf(goal, counter, now, day))
    {
      goals := Upsert(goals, goal.id, goal);
      var _ := Store(GoalEntry, "system", GoalContentOf(goal), High, Some(["goal", goal.status]), None, None, now, day);
    }

    /** `get_active_goals`: exactly the goals whose status is "active", in table order. */
    function ActiveGoals(): (gs: seq<CompanyGoal>)
      reads this
      ensures forall g :: g in gs <==> g in Values(goals) && g.status == "active"
    {
      ActiveOf(Values(goals))
    }

    /** `update_goal_progress`: sets only the current value of a known goal; an unknown id changes nothing. */
    method UpdateGoalProgress(goalId: string, newValue: real)
      requires Valid()
      modifies this
      ensures Valid()
      ensures Lookup(old(goals), goalId).None? ==> goals == old(goals)
      ensures Lookup(old(goals), goalId).Some? ==>
                goals == Upsert(old(goals), goalId, Lookup(old(goals), goalId).value.(currentValue := newValue))
      ensures entries == old(entries) && constraints == old(constraints) && counter == old(counter)
      ensures callbacks == old(callbacks) && deliveries == old(deliveries)
    {
      var g := Lookup(goals, goalId);
      if g.Some? {
        goals := Upsert(goals, goalId, g.value.(currentValue := newValue));
      }
    }

    /**
     * `add_constraint`: inserts or replaces the constraint under its id and
     * records one constraint entry, HIGH for a hard limit and MEDIUM otherwise.
     */
    method AddConstraint(c: Constraint, now: int, day: string)
      requires Valid() && |day| == 8
      modifies this
      ensures Valid()
      ensures constraints == Upsert(old(constraints), c.id, c)
      ensures counter == old(counter) + 1
      ensures entries == old(entries) + [ConstraintEntryOf(c, counter, now, day)]
      ensures goals == old(goals) && callbacks == old(callbacks)
      ensures deliveries == old(deliveries) + Notifications(callbacks, ConstraintEntryOf(c, counter, now, day))
    {
      constraints := Upsert(constraints, c.id, c);
      var _ := Store(ConstraintEntry, "system", ConstraintContentOf(c), ConstraintPriority(c),
                     Some(["constraint", c.category]), None, None, now, day);
    }

    /** `get_constraints_by_category`: exactly the constraints of that category, in table order. */
    function ConstraintsByCategory(category: string): (cs: seq<Constraint>)
      reads this
      ensures forall c :: c in cs <==> c in Values(constraints) && c.category == category
    {
      InCategory(Values(constraints), category)
    }

    /**
     * `update_constraint_usage`: an unknown id reports success and changes
     * nothing. For a known constraint the new usage is committed first; then
     * exactly when it breaks a hard limit one CRITICAL alert entry is added
     * and failure reported, and otherwise nothing else changes.
     */
    method UpdateConstraintUsage(constraintId: string, newUsage: real, now: int, day: string)
      returns (withinLimit: bool)
      requires Valid() && |day| == 8
      modifies this
      ensures Valid()
      ensures goals == old(goals) && callbacks == old(callbacks)
      ensures Lookup(old(constraints), constraintId).None? ==>
                withinLimit && constraints == old(constraints) && entries == old(entries) && counter == old(counter)
      ensures withinLimit ==> deliveries == old(deliveries)
      ensures Lookup(old(constraints), constraintId).Some? ==>
                var c := Lookup(old(constraints), constraintId).value;
                && constraints == Upsert(old(constraints), constraintId, c.(currentUsage := newUsage))
                && (withinLimit <==> !Violates(c, newUsage))
                && (withinLimit ==> entries == old(entries) && counter == old(counter))
                && (!withinLimit ==>
                      counter == old(counter) + 1
                      && entries == old(entries) + [MemoryEntry(MemIdText(day, counter), AlertEntry, "system",
                                                                AlertContent("constraint_violation", constraintId,
                                                                             c.limitValue, newUsage),
                                                                now, Critical, ["alert", "constraint_violation"],
                                                                [], None)]
                      && deliveries == old(deliveries) + Notifications(callbacks, entries[|entries| - 1]))
    {
      var found := Lookup(constraints, constraintId);
      if found.None? {
        return true;
      }
      var c := found.value;
      constraints := Upsert(constraints, constraintId, c.(currentUsage := newUsage));
      if c.hardLimit && newUsage > c.limitValue {
        var _ := Store(AlertEntry, "system", AlertContent("constraint_violation", constraintId, c.limitValue, newUsage),
                       Critical, Some(["alert", "constraint_violation"]), None, None, now, day);
        return false;
      }
      return true;
    }

    /** `register_callback`: the callback is notified of every later entry. */
    method RegisterCallback(cb: Callback)
      requires Valid()
      modifies this
      ensures Valid()
      ensures callbacks == old(callbacks) + [cb]
      ensures entries == old(entries) && goals == old(goals) && constraints == old(constraints)
      ensures counter == old(counter) && deliveries == old(deliveries)
    {
      callbacks := callbacks + [cb];
    }

    /** `clear_expired`: removes exactly the expired entries, keeps the rest in order, and counts the removed. */
    method ClearExpired(now: int) returns (removed: nat)
      requires Valid()
      modifies this
      ensures Valid()
      ensures entries == Unexpired(old(entries), now)
      ensures removed == |old(entries)| - |entries|
      ensures goals == old(goals) && constraints == old(constraints) && counter == old(counter)
      ensures callbacks == old(callbacks) && deliveries == old(deliveries)
    {
      var kept: seq<MemoryEntry> := [];
      removed := 0;
      for i := 0 to |entries|
        invariant kept == Unexpired(entries[..i], now)
        invariant removed == i - |kept|
      {
        assert entries[..i + 1][..i] == entries[..i];
        if Expired(entries[i], now) {
          removed := removed + 1;
        } else {
          kept := kept + [entries[i]];
        }
      }
      assert entries[..|entries|] == entries;
      UnexpiredDistinctIds(entries, now);
      UnexpiredIssued(entries, counter, now);
      entries := kept;
    }
  }
}
