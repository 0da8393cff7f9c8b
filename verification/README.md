# Agentic enterprise coordination core, in Dafny

This project models the coordination layer of a multi-agent "agentic
enterprise". A CEO orchestrator turns a strategic prompt into a structured
goal and splits it into one task per department. It hands each task to a
functional agent (sales, marketing, finance, operations, support, HR) and
stores every agent output in a shared memory. It runs a conflict engine over
the outputs and applies the governance escalation rules. Last, it files an
executive roll-up with budget and headcount totals, three strategic options,
department plans and de-duplicated risks.

Around the orchestrator sit four infrastructure components, each modelled
with its state in a Dafny `class`:

- the **shared memory**: entries with generated ids, filtered newest-first
  queries, company goals and business constraints;
- the **audit logger**: decision records with a confidence tier, an
  integrity hash, prompt and agent indexes, approvals and a report;
- the **governance layer**: a fixed permission table, auto-approval
  thresholds, approval requests with status updates, and the ordered
  escalation rules;
- the **conflict resolver**: four detection passes, a resolution strategy
  per conflict kind with greedy priority-ordered budget allocation, and the
  alignment report.

Python dicts, which iterate in insertion order, are modelled as sequences of
`(key, value)` pairs (module `Table`). An assignment to a present key keeps
its position; a new key goes last. Loops that build values are `method`s
proved equal to a specification function. The properties the system
promises are proved about those functions as lemmas.

Files:

| file | module | models |
|---|---|---|
| `common.dfy` | `Common` | `Option`, sums, `list(set(...))` de-duplication, sequence helpers |
| `text.dfy` | `Text` | ASCII case mapping, `in` on strings, Python's `str` order, zero-padded decimals inside ids |
| `table.dfy` | `Table` | insertion-ordered dicts: lookup, assignment, counting |
| `grouping.dfy` | `Grouping` | the "dict of lists" grouping the conflict passes use |
| `base_agent.dfy` | `BaseAgent` | `AgentOutput`, the confidence formula, citations, task ids |
| `shared_memory.dfy` | `SharedMemory` | the shared memory store |
| `audit_logger.dfy` | `AuditLogger` | the audit trail |
| `governance.dfy` | `Governance` | permissions, approval requests, escalation rules |
| `conflict_resolver.dfy` | `ConflictResolver` | conflict detection, resolution, alignment report |
| `executive.dfy` | `Executive` | the executive roll-up |
| `orchestrator.dfy` | `Orchestrator` | prompt parsing, decomposition, routing, governance check, `process_prompt` |

Where the written description of the system and the code disagree, the
model follows the code:

- A decision record is pending approval when some required approver has not
  approved it, that is when `set(required) - set(obtained)` is non-empty. It
  is not "the required set is a strict superset of the obtained set".
- Integrity hashes cover one record each. They are not chained from record
  to record.
- An amount exactly at an auto-approval threshold is auto-approved, since
  the code compares with `<=`.
- `update_constraint_usage` commits the new usage before it raises the
  alert for a broken hard limit.

## Model

| member | source | states |
|---|---|---|
| Text.Decimal | infrastructure/shared_memory.py:115 | `str(n)` is a non-empty string of digits |
| Text.DecimalRoundTrip | infrastructure/shared_memory.py:115 | reading back the decimal digits of `n` gives `n` |
| Text.LeadingZeros | infrastructure/shared_memory.py:115 | zero padding keeps a digit string's value |
| Text.PaddedRoundTrip | infrastructure/shared_memory.py:115 | `f"{n:0wd}"` is at least `w` digits long and reads back as `n` |
| Text.TagInjective | infrastructure/governance.py:186 | two `REQ-` ids coincide only when their numbers do |
| Text.StampInjective | infrastructure/shared_memory.py:111-115 | two dated ids whose days have equal length coincide only when day and counter both agree |
| Text.IntTextRoundTrip | agents/base_agent.py:83 | `str(i)` of any integer reads back as `i` |
| Text.Lower | ceo_orchestrator.py:183 | `lower()` maps each character through the ASCII lower-case mapping and keeps the length |
| Text.Upper | agents/base_agent.py:78 | `upper()` maps each character through the ASCII upper-case mapping and keeps the length |
| Text.Contains | ceo_orchestrator.py:187 | `sub in s` holds exactly when `sub` starts at some position of `s` |
| Text.StrLessIrreflexive | infrastructure/shared_memory.py:211 | Python's `<` on strings is irreflexive |
| Text.StrLessTransitive | infrastructure/shared_memory.py:211 | Python's `<` on strings is transitive |
| Common.Dedup | ceo_orchestrator.py:418 | `list(set(xs))` holds each element of `xs` once and nothing else |
| Table.Lookup | infrastructure/shared_memory.py:171-174 | `d.get(k)` finds a value exactly when `k` is a key, and the pair is stored |
| Table.LookupStored | infrastructure/shared_memory.py:171-174 | with unique keys, every stored pair is what a lookup of its key finds |
| Table.Upsert | infrastructure/shared_memory.py:236 | `d[k] = v` keeps keys unique, maps `k` to `v`, leaves every other key's value, and appends `k` only when it is new |
| Table.UpsertShape | infrastructure/shared_memory.py:236 | a present key is overwritten where it stands; a new key is appended |
| Table.UpsertAllLookup | ceo_orchestrator.py:273-299 | after a series of assignments a key maps to the last value assigned to it, or to its old value |
| Table.UpsertAllFresh | ceo_orchestrator.py:104-115 | assigning pairs with distinct keys to an empty dict keeps them as they are, in order |
| Table.Bump | infrastructure/audit_logger.py:348-353 | `d[k] = d.get(k, 0) + 1` adds one occurrence of `k` and one to the total |
| Table.Tally | infrastructure/audit_logger.py:348-353 | the counting dict maps each key to its number of occurrences, and its counts add up to the number of keys |
| Grouping.KeysOf | infrastructure/conflict_resolver.py:99-113 | the dict-of-lists keys are each key once, exactly the keys that occur |
| Grouping.GroupNonEmpty | infrastructure/conflict_resolver.py:107-113 | a key has a non-empty list exactly when it occurs |
| Grouping.GroupBy | infrastructure/conflict_resolver.py:99-113 | the grouping loop yields the keys in first-occurrence order and each key's values in order |
| BaseAgent.NewAgentOutput | agents/base_agent.py:15-36 | `__post_init__` replaces absent risks, dependencies and change-of-mind lists by `[]` and keeps every other field |
| BaseAgent.AssumptionPenalty | agents/base_agent.py:112 | the penalty is 0.05 per assumption, capped at 0.3 |
| BaseAgent.AssessConfidence | agents/base_agent.py:95-119 | the confidence always lies in [0, 1] |
| BaseAgent.ConfidenceNonIncreasingInAssumptions | agents/base_agent.py:109-119 | more assumptions never raise the confidence |
| BaseAgent.PrecedentNeverLowersConfidence | agents/base_agent.py:115-119 | a historical precedent never lowers the confidence |
| BaseAgent.ConfidenceIsDataQualityWithoutAssumptions | agents/base_agent.py:109-119 | with no assumptions and no precedent the confidence is the data quality |
| BaseAgent.SplitFirstJoin | agents/base_agent.py:83 | splitting at the first separator recovers both halves when the first has no separator |
| BaseAgent.CitationRoundTrip | agents/base_agent.py:80-83 | source, query and record count read back from the citation when source and query contain no colon |
| BaseAgent.RecordsRoundTrip | agents/base_agent.py:83 | the `<n>_records` part reads back as `n` |
| BaseAgent.FormatRecommendation | agents/base_agent.py:85-93 | the recommendation has exactly the four keys, each equal to its argument |
| BaseAgent.TaskIdsDistinct | agents/base_agent.py:75-78 | task ids of one agent with different counts differ, for any random parts of equal length |
| BaseAgent.TaskIdCount | agents/base_agent.py:75-78 | the zero-padded count sits between the upper-cased name and the random part |
| BaseAgent.Agent.constructor | agents/base_agent.py:52 | a new agent has its name and a task count of 0 |
| BaseAgent.Agent.GenerateTaskId | agents/base_agent.py:75-78 | the counter goes up by exactly one and the id embeds the new count |
| SharedMemory.ExpiryOf | infrastructure/shared_memory.py:117-169 | an expiry exists exactly when `expires_in_hours` is given and non-zero, and lies that many hours after `now` |
| SharedMemory.FindEntry | infrastructure/shared_memory.py:171-174 | the position of the first entry with the id, or the table length |
| SharedMemory.Notifications | infrastructure/shared_memory.py:160-167 | one notification per callback, in registration order |
| SharedMemory.MatchingOf | infrastructure/shared_memory.py:199-216 | exactly the unexpired entries that pass every filter |
| SharedMemory.InsertNewestFirst | infrastructure/shared_memory.py:218 | insertion adds exactly the one entry |
| SharedMemory.InsertKeepsNewestFirst | infrastructure/shared_memory.py:218 | insertion keeps a newest-first list newest first |
| SharedMemory.InsertBounded | infrastructure/shared_memory.py:218 | insertion creates no entry newer than a bound all inputs respect |
| SharedMemory.SortNewestFirst | infrastructure/shared_memory.py:218 | `sorted(..., key=timestamp, reverse=True)` is a permutation, newest first |
| SharedMemory.SortNewestFirstStable | infrastructure/shared_memory.py:218 | the sort is stable: the entries with any one timestamp come out in the order they went in |
| SharedMemory.PriorityTextOrder | infrastructure/shared_memory.py:211 | the priority value strings order as critical < high < low < medium |
| SharedMemory.MinPriorityHighDropsCritical | infrastructure/shared_memory.py:211 | asking for at least HIGH drops CRITICAL entries and keeps LOW ones |
| SharedMemory.ActiveOf | infrastructure/shared_memory.py:245-248 | exactly the goals whose status is "active" |
| SharedMemory.InCategory | infrastructure/shared_memory.py:281-284 | exactly the constraints of the category |
| SharedMemory.Unexpired | infrastructure/shared_memory.py:357-366 | exactly the entries not yet expired |
| SharedMemory.MemIdFresh | infrastructure/shared_memory.py:111-115 | the id from the next counter value is none of the stored ids |
| SharedMemory.MemIdAhead | infrastructure/shared_memory.py:111-115 | an id from counter value `n` differs from every id of a larger value |
| SharedMemory.AppendDistinct | infrastructure/shared_memory.py:154-157 | appending an entry with a new id keeps ids unique, and a lookup finds it |
| SharedMemory.AppendIssued | infrastructure/shared_memory.py:111-157 | appending the entry for the next counter value keeps every id ahead of the counter |
| SharedMemory.FreshIdAppend | infrastructure/shared_memory.py:111-157 | the next id is fresh; storing under it keeps the ids unique and findable |
| SharedMemory.UnexpiredDistinctIds | infrastructure/shared_memory.py:357-366 | dropping expired entries keeps the ids unique |
| SharedMemory.UnexpiredIssued | infrastructure/shared_memory.py:357-366 | dropping entries keeps every id ahead of the counter |
| SharedMemory.SharedMemory.constructor | infrastructure/shared_memory.py:103-109 | the store starts empty with counter 0 |
| SharedMemory.SharedMemory.Get | infrastructure/shared_memory.py:171-174 | `get` returns a stored entry with the id, or None exactly when no entry has it |
| SharedMemory.SharedMemory.Store | infrastructure/shared_memory.py:117-169 | the counter goes up by one; the entry is appended under a fresh id with all given fields; every callback is notified in order |
| SharedMemory.SharedMemory.Notify | infrastructure/shared_memory.py:160-167 | every callback is handed the entry in order and a raising one changes nothing |
| SharedMemory.SharedMemory.Query | infrastructure/shared_memory.py:176-218 | exactly the unexpired entries passing every filter, as a permutation of the table's matches, newest first, with entries of equal timestamp in table order |
| SharedMemory.SharedMemory.AddGoal | infrastructure/shared_memory.py:220-238 | the goal is stored under its id and one HIGH goal entry is added, and every callback hears of that entry in order |
| SharedMemory.SharedMemory.ActiveGoals | infrastructure/shared_memory.py:245-248 | exactly the stored goals whose status is "active" |
| SharedMemory.SharedMemory.UpdateGoalProgress | infrastructure/shared_memory.py:250-254 | only the current value of a known goal changes; an unknown id changes nothing; no callback is called |
| SharedMemory.SharedMemory.AddConstraint | infrastructure/shared_memory.py:256-274 | the constraint is stored under its id with one entry, HIGH for a hard limit and MEDIUM otherwise, and every callback hears of that entry in order |
| SharedMemory.SharedMemory.ConstraintsByCategory | infrastructure/shared_memory.py:281-284 | exactly the stored constraints of the category |
| SharedMemory.SharedMemory.UpdateConstraintUsage | infrastructure/shared_memory.py:286-312 | unknown id: true and no change; known id: the usage is committed, and exactly when a hard limit is exceeded one CRITICAL alert is stored, the callbacks hear of it, and false is returned; otherwise no callback is called |
| SharedMemory.SharedMemory.RegisterCallback | infrastructure/shared_memory.py:314-317 | the callback joins the end of the list and nothing else changes |
| SharedMemory.SharedMemory.ClearExpired | infrastructure/shared_memory.py:357-366 | exactly the expired entries are removed, the rest keep their order, the count removed is returned, and no callback is called |
| AuditLogger.Tier | infrastructure/audit_logger.py:198-208 | each tier holds exactly for its score band, with breakpoints 0.9, 0.8, 0.65 and 0.5, each inclusive |
| AuditLogger.TierMonotone | infrastructure/audit_logger.py:198-208 | a higher score never gets a lower tier |
| AuditLogger.HashIgnoresMutableFields | infrastructure/audit_logger.py:100-103 | changing approvals or outcome fields leaves the hash check unchanged |
| AuditLogger.TamperDetected | infrastructure/audit_logger.py:318-324 | with an injective digest, altering the id, time, agent or decision of a record makes the check fail; this is detection up to digest collisions |
| AuditLogger.WithApproval | infrastructure/audit_logger.py:274-283 | the approver is added once; the list is unchanged when it is already there |
| AuditLogger.WithApprovalIdempotent | infrastructure/audit_logger.py:274-283 | recording an approval twice equals recording it once |
| AuditLogger.CountedPendingIsAwaiting | infrastructure/audit_logger.py:302-311 | a record the report counts as pending awaits approval |
| AuditLogger.PartialApprovalNotCounted | infrastructure/audit_logger.py:358 | a record with one of two approvals awaits approval but the report does not count it |
| AuditLogger.Where | infrastructure/audit_logger.py:313-316 | a filter comprehension keeps exactly the accepted elements |
| AuditLogger.ReportUndercountsPending | infrastructure/audit_logger.py:358 | the report's pending count never exceeds the records awaiting approval |
| AuditLogger.RecordIndex | infrastructure/audit_logger.py:287-288 | the position of the record with the id, or the log length |
| AuditLogger.AudIdAhead | infrastructure/audit_logger.py:152-156 | an audit id differs from every id of a larger counter value |
| AuditLogger.AudIdFresh | infrastructure/audit_logger.py:152-156 | the id from the next counter value is none of the logged ids |
| AuditLogger.AppendDistinct | infrastructure/audit_logger.py:233-234 | appending a record with a new id keeps ids unique |
| AuditLogger.RecordsOfMembers | infrastructure/audit_logger.py:290-300 | a key's records are exactly the logged records filed under it |
| AuditLogger.RecordsOfAppend | infrastructure/audit_logger.py:236-243 | a new record joins the end of its own prompt's and agent's records only |
| AuditLogger.IndexAppend | infrastructure/audit_logger.py:236-243 | appending the id to its key's list keeps the index faithful to the log |
| AuditLogger.IdsOfReplace | infrastructure/audit_logger.py:254-283 | replacing a record by one with the same id and key keeps every index list |
| AuditLogger.ResolveIndexed | infrastructure/audit_logger.py:290-300 | resolving an index list gives exactly the key's records, in logging order |
| AuditLogger.Selected | infrastructure/audit_logger.py:333-341 | exactly the records passing the date and agent filters |
| AuditLogger.CountStep | infrastructure/audit_logger.py:348-353 | counting one more record bumps its type's count and its tier's count |
| AuditLogger.Earliest | infrastructure/audit_logger.py:364-367 | the earliest timestamp bounds every record from below and is some record's |
| AuditLogger.Latest | infrastructure/audit_logger.py:364-367 | the latest timestamp bounds every record from above and is some record's |
| AuditLogger.ReportOf | infrastructure/audit_logger.py:326-373 | no records gives the zero report; otherwise the type and tier counts each count occurrences and add up to the total; the average is the mean score; the pending count never exceeds the records awaiting approval; the date range is the minimum and maximum timestamp (a bound of every record, met by some record); each agent appears once |
| AuditLogger.Notifications | infrastructure/audit_logger.py:245-250 | one notification per callback, in registration order |
| AuditLogger.LogKeepsValid | infrastructure/audit_logger.py:158-252 | logging an intact record under a fresh id keeps ids unique, indexes faithful and hashes intact |
| AuditLogger.ReplaceKeepsValid | infrastructure/audit_logger.py:254-283 | changing only mutable fields of a record keeps the invariant |
| AuditLogger.PreservesTransitive | infrastructure/audit_logger.py:254-283 | preservation of what records decided composes across operations |
| AuditLogger.AuditLogger.constructor | infrastructure/audit_logger.py:144-150 | the log starts empty with counter 0 |
| AuditLogger.AuditLogger.Get | infrastructure/audit_logger.py:285-288 | returns a logged record with the id, or None exactly when there is none |
| AuditLogger.AuditLogger.LogDecision | infrastructure/audit_logger.py:158-252 | one record is appended under a fresh id with the score's tier and a matching hash; it is filed last under its prompt and agent; every callback is notified |
| AuditLogger.AuditLogger.Append | infrastructure/audit_logger.py:230-243 | the record is appended and both indexes updated, keeping the invariant |
| AuditLogger.AuditLogger.Notify | infrastructure/audit_logger.py:245-250 | every callback is handed the record in order and a raising one changes nothing |
| AuditLogger.AuditLogger.UpdateOutcome | infrastructure/audit_logger.py:254-272 | unknown id: false and no change; otherwise only the record's outcome, outcome time and notes change; no callback is called |
| AuditLogger.AuditLogger.AddApproval | infrastructure/audit_logger.py:274-283 | unknown id: false and no change; otherwise the approver is added once and a repeat changes nothing; no callback is called |
| AuditLogger.AuditLogger.RecordsByPrompt | infrastructure/audit_logger.py:290-294 | exactly the prompt's records, in logging order |
| AuditLogger.AuditLogger.RecordsByAgent | infrastructure/audit_logger.py:296-300 | exactly the agent's records, in logging order |
| AuditLogger.AuditLogger.PendingApprovals | infrastructure/audit_logger.py:302-311 | exactly the records missing a required approval, in logging order |
| AuditLogger.AuditLogger.EscalatedDecisions | infrastructure/audit_logger.py:313-316 | exactly the records with a non-empty escalation target |
| AuditLogger.AuditLogger.VerifyIntegrity | infrastructure/audit_logger.py:318-324 | false for an unknown id; true only for an intact record; under the invariant, true for every logged id |
| AuditLogger.AuditLogger.GenerateReport | infrastructure/audit_logger.py:326-373 | the report over the filtered records |
| AuditLogger.AuditLogger.CountKinds | infrastructure/audit_logger.py:347-353 | the loop builds the counting dicts: each decision type and each tier maps to its number of records |
| AuditLogger.AuditLogger.RegisterCallback | infrastructure/audit_logger.py:386-389 | the callback joins the end of the list and nothing else changes |
| Governance.CheckPermission | infrastructure/governance.py:117-175 | allowed exactly when the amount is within the spending limit and the agent holds the mapped permission; approval is needed exactly when not allowed, from the orchestrator; auto-approved exactly when allowed with a truthy amount within the threshold |
| Governance.AutoApprovedOnlyForOrchestrator | infrastructure/governance.py:71-175 | for a non-negative amount only the orchestrator is auto-approved, and only for budget or hiring |
| Governance.NegativeAmountFlaggedAutoApproved | infrastructure/governance.py:152-161 | a negative amount is flagged auto-approved even under a zero threshold |
| Governance.UnknownAgentNeverAllowed | infrastructure/governance.py:125-175 | an agent missing from the table is never allowed and is sent to the orchestrator |
| Governance.OrchestratorNeverOverLimit | infrastructure/governance.py:129-135 | no amount exceeds the orchestrator's infinite limit |
| Governance.NewRequest | infrastructure/governance.py:177-216 | the request is numbered `REQ-n`; it is AUTO_APPROVED by "system" exactly when the amount is truthy and within the threshold, else PENDING for the orchestrator; absent details become `{}` |
| Governance.AutoApprovalAtThreshold | infrastructure/governance.py:189-190 | an amount equal to a threshold is auto-approved |
| Governance.NoAutoApprovalWithoutAmount | infrastructure/governance.py:190 | a zero or missing amount is never auto-approved |
| Governance.NegativeAmountAutoApproved | infrastructure/governance.py:190 | a negative amount is auto-approved for any type |
| Governance.FirstWithId | infrastructure/governance.py:221-228 | the position of the first request with the id, or the list length |
| Governance.PendingOf | infrastructure/governance.py:250-252 | exactly the PENDING requests, as many as are counted |
| Governance.StatusCountsSum | infrastructure/governance.py:254-266 | the per-status counts add up to the number of requests |
| Governance.FirstFiring | infrastructure/governance.py:268-297 | the first rule that fires; none exactly when no rule fires |
| Governance.ShouldEscalateFirstRule | infrastructure/governance.py:268-297 | escalates exactly when some rule fires, with the reason of the first firing rule in the fixed order, and `(false, "")` otherwise |
| Governance.ConfidenceThresholdIsStrict | infrastructure/governance.py:278 | a confidence of exactly 0.6 does not trigger the confidence rule |
| Governance.Governance.constructor | infrastructure/governance.py:61-69 | the governance layer starts with no requests |
| Governance.Governance.FindById | infrastructure/governance.py:186-228 | the request with id `REQ-n` is the n-th, and no earlier one matches |
| Governance.Governance.RequestApproval | infrastructure/governance.py:177-216 | exactly one request is appended, numbered after the existing ones |
| Governance.Governance.Approve | infrastructure/governance.py:218-228 | the first request with the id becomes APPROVED by the approver with the extra conditions; an unknown id changes nothing |
| Governance.Governance.Reject | infrastructure/governance.py:230-238 | the first request with the id becomes REJECTED with the reason recorded; an unknown id changes nothing |
| Governance.Governance.Escalate | infrastructure/governance.py:240-248 | the first request with the id becomes ESCALATED to "ceo" with the reason recorded; an unknown id changes nothing |
| Governance.Governance.Locate | infrastructure/governance.py:221-222 | the scan finds the first request with the id |
| Governance.Governance.PendingRequests | infrastructure/governance.py:250-252 | exactly the PENDING requests |
| Governance.Governance.ApprovalSummaryOf | infrastructure/governance.py:254-266 | the total, a count for each status that occurs, and the pending and auto-approved counts |
| ConflictResolver.RemoveAll | infrastructure/conflict_resolver.py:104 | `replace(pat, "")` never lengthens the text |
| ConflictResolver.RemoveAllAbsent | infrastructure/conflict_resolver.py:104 | text without the pattern is unchanged |
| ConflictResolver.RemoveAllTrailing | infrastructure/conflict_resolver.py:104 | removing a trailing pattern leaves the prefix when no earlier occurrence starts |
| ConflictResolver.SalesAgentDepartment | infrastructure/conflict_resolver.py:104 | `sales_agent` files its requests under `sales` |
| ConflictResolver.Available | infrastructure/conflict_resolver.py:119-123 | the available budget is half the department's limit, 0 when unknown |
| ConflictResolver.ShortfallsEmpty | infrastructure/conflict_resolver.py:116-132 | no shortfall exactly when every department's requests fit what is available |
| ConflictResolver.ShortfallsSound | infrastructure/conflict_resolver.py:116-132 | each shortfall is a department whose requested total exceeds what is available, by the reported amount |
| ConflictResolver.BudgetConflictOf | infrastructure/conflict_resolver.py:96-144 | a conflict exactly when some department's requests exceed what is available; it is CONF-001, high, over every agent, unresolved, with the shortfalls |
| ConflictResolver.BudgetConflictShortfall | infrastructure/conflict_resolver.py:116-132 | each reported department has requests over half its limit |
| ConflictResolver.DetectBudgetConflict | infrastructure/conflict_resolver.py:96-144 | the budget pass's loops compute the budget conflict |
| ConflictResolver.ScanShortfalls | infrastructure/conflict_resolver.py:116-132 | the department loop finds the shortfalls |
| ConflictResolver.DependenciesOf | infrastructure/conflict_resolver.py:156-162 | one dependency per `depends_on` item, needed by the completion date |
| ConflictResolver.DeliverablesOf | infrastructure/conflict_resolver.py:165-171 | one deliverable per listed item |
| ConflictResolver.Unmet | infrastructure/conflict_resolver.py:174-181 | exactly the dependencies no deliverable name satisfies |
| ConflictResolver.TimelineConflictOf | infrastructure/conflict_resolver.py:146-193 | a conflict exactly when some dependency is unmet; it is CONF-002, medium, unresolved, listing the unmet dependencies and their agents |
| ConflictResolver.DetectTimelineConflict | infrastructure/conflict_resolver.py:146-193 | the timeline pass's loops compute the timeline conflict |
| ConflictResolver.CollectTimelines | infrastructure/conflict_resolver.py:151-171 | the collection loop gathers every dependency and deliverable in order |
| ConflictResolver.ScanUnmet | infrastructure/conflict_resolver.py:174-181 | the loop keeps exactly the unmet dependencies in order |
| ConflictResolver.StrategiesOf | infrastructure/conflict_resolver.py:197-201 | the strategies dict has unique keys |
| ConflictResolver.ContradictionsOf | infrastructure/conflict_resolver.py:203-226 | the CAC contradiction exactly when marketing increases and finance decreases CAC; the pricing one exactly when sales discounts aggressively and finance protects margins |
| ConflictResolver.StrategicConflictOf | infrastructure/conflict_resolver.py:195-238 | a conflict exactly when there is a contradiction; it is CONF-003, critical, unresolved, over the agents with a strategy |
| ConflictResolver.DetectStrategicMisalignment | infrastructure/conflict_resolver.py:195-238 | the strategic pass computes the strategic conflict |
| ConflictResolver.ResourceLinesOf | infrastructure/conflict_resolver.py:246-254 | one line per request, amount 1 and priority "medium" by default |
| ConflictResolver.ContendedResourcesEmpty | infrastructure/conflict_resolver.py:256-267 | no contention exactly when no resource is contended |
| ConflictResolver.ContendedResourcesSound | infrastructure/conflict_resolver.py:256-267 | each contention is a resource with several requests totalling more than 3 |
| ConflictResolver.RequestersOf | infrastructure/conflict_resolver.py:273 | exactly the agents of the contended requests |
| ConflictResolver.ResourceConflictOf | infrastructure/conflict_resolver.py:240-279 | a conflict exactly when some resource is contended; it is CONF-004, medium, unresolved; its data lists every contended resource with its requesters; the agents involved are exactly those requesters, each once |
| ConflictResolver.DetectResourceContention | infrastructure/conflict_resolver.py:240-279 | the resource pass's loops compute the resource conflict |
| ConflictResolver.CollectResourceItems | infrastructure/conflict_resolver.py:244-254 | the loop gathers every resource request in order |
| ConflictResolver.ScanContentions | infrastructure/conflict_resolver.py:256-267 | the resource loop finds the contentions |
| ConflictResolver.Listed | infrastructure/conflict_resolver.py:74-91 | a finding is appended exactly when the pass returns one |
| ConflictResolver.PassFindings | infrastructure/conflict_resolver.py:59-279 | each pass finds nothing or one unresolved conflict with its own id and severity |
| ConflictResolver.FindingsShape | infrastructure/conflict_resolver.py:59-94 | at most four findings, none resolved; none exactly when every pass is quiet; a strategic one makes the report NEEDS_RESOLUTION |
| ConflictResolver.DetectAllShape | infrastructure/conflict_resolver.py:59-94 | detection finds at most four conflicts, CONF-001 to CONF-004, unresolved; none exactly when every pass is quiet |
| ConflictResolver.NoSectionsNoConflicts | infrastructure/conflict_resolver.py:59-279 | outputs without budget, timeline, strategy or resource sections raise no conflict |
| ConflictResolver.PriorityRank | infrastructure/conflict_resolver.py:321-325 | a priority ranks 0 to 3, with unknown or missing priorities as medium |
| ConflictResolver.Bucket | infrastructure/conflict_resolver.py:322-325 | the bucket holds only lines of its rank |
| ConflictResolver.BucketsPartition | infrastructure/conflict_resolver.py:322-325 | the four buckets together hold exactly the lines |
| ConflictResolver.SortByPriorityCorrect | infrastructure/conflict_resolver.py:322-325 | the sort is a permutation of the requests, of the same length, ordered by rank, and stable: the requests of each rank keep their original order |
| ConflictResolver.BucketConcat | infrastructure/conflict_resolver.py:322-325 | taking one rank's requests distributes over concatenation |
| ConflictResolver.BucketOfBucket | infrastructure/conflict_resolver.py:322-325 | a rank's requests hold no request of another rank |
| ConflictResolver.SortByPriorityBucket | infrastructure/conflict_resolver.py:322-325 | after sorting, each rank's requests are those of the input in input order |
| ConflictResolver.AllocateStep | infrastructure/conflict_resolver.py:331-346 | one step funds at most the request, and allocation plus remainder equals what remained |
| ConflictResolver.Allocate | infrastructure/conflict_resolver.py:327-346 | one allocation per request to its agent, never more than requested, and allocated plus remaining equals available; which requests are funded is stated by AllocateGreedy |
| ConflictResolver.AllocationAt | infrastructure/conflict_resolver.py:331-346 | the i-th allocation is the funding step on the i-th request with what the earlier requests left |
| ConflictResolver.RemainingClosedForm | infrastructure/conflict_resolver.py:327-346 | with non-negative requests the remainder is available less the total requested, or 0 once that goes below zero |
| ConflictResolver.AllocateGreedy | infrastructure/conflict_resolver.py:327-346 | with non-negative requests, request i is fully funded exactly when it fits in available less the earlier requests' total (all of available for the first), and otherwise gets exactly that remainder as a partial funding |
| ConflictResolver.RemainingNonNegative | infrastructure/conflict_resolver.py:331-349 | after any request nothing negative remains, so the conflict is reported resolved |
| ConflictResolver.RemainingZeroOrSlack | infrastructure/conflict_resolver.py:327-346 | with non-negative requests the remainder is 0 or the untouched slack |
| ConflictResolver.AllocationExhaustsBudget | infrastructure/conflict_resolver.py:327-346 | when more is requested than available, all of it is handed out |
| ConflictResolver.AllocateBudget | infrastructure/conflict_resolver.py:327-346 | the allocation loop computes the greedy allocation |
| ConflictResolver.ResolveBudgetConflict | infrastructure/conflict_resolver.py:309-353 | the budget strategy allocates the first shortfall's available budget by priority |
| ConflictResolver.RunStrategy | infrastructure/conflict_resolver.py:292-294 | the strategy of the conflict's kind is run, none for a kind without one |
| ConflictResolver.Applied | infrastructure/conflict_resolver.py:291-300 | only the resolution is recorded on the conflict |
| ConflictResolver.ResolutionByKind | infrastructure/conflict_resolver.py:355-386 | resource, timeline and priority conflicts are resolved; strategic and dependency ones are not |
| ConflictResolver.DetectedBudgetConflictResolved | infrastructure/conflict_resolver.py:309-353 | a detected budget conflict is always resolved without the CEO |
| ConflictResolver.BudgetResolvedWhenRequested | infrastructure/conflict_resolver.py:309-353 | a budget conflict with requests is resolved without the CEO |
| ConflictResolver.UnresolvedOf | infrastructure/conflict_resolver.py:288-305 | never more unresolved conflicts than conflicts |
| ConflictResolver.UnresolvedOfMembers | infrastructure/conflict_resolver.py:288-305 | exactly the conflicts their strategy leaves unresolved, as they stand after resolution |
| ConflictResolver.UnresolvedOfConcat | infrastructure/conflict_resolver.py:291-305 | resolution handles conflicts one by one, in order |
| ConflictResolver.OnlyStrategicConflictStaysUnresolved | infrastructure/conflict_resolver.py:59-386 | of the detected conflicts only the strategic one stays unresolved |
| ConflictResolver.CountSeverity | infrastructure/conflict_resolver.py:397-398 | a severity counts above 0 exactly when some conflict has it |
| ConflictResolver.UnresolvedIds | infrastructure/conflict_resolver.py:404 | exactly the ids of conflicts without a recorded resolution |
| ConflictResolver.AlignmentReportOf | infrastructure/conflict_resolver.py:388-406 | ALIGNED exactly when there is no conflict; NEEDS_RESOLUTION exactly when one is critical; the counts and unresolved ids match the conflicts |
| ConflictResolver.SeverityCountsSum | infrastructure/conflict_resolver.py:397-403 | the critical, high and other counts add up to the number of conflicts |
| ConflictResolver.DetectedNeedsResolution | infrastructure/conflict_resolver.py:59-406 | detection leads to NEEDS_RESOLUTION exactly when the strategic pass finds a conflict |
| ConflictResolver.ConflictResolver.constructor | infrastructure/conflict_resolver.py:49-57 | the resolver starts with no conflicts |
| ConflictResolver.ConflictResolver.DetectConflicts | infrastructure/conflict_resolver.py:59-94 | the four passes run in order and their findings are kept |
| ConflictResolver.ConflictResolver.ResolveConflicts | infrastructure/conflict_resolver.py:281-307 | every conflict handed in is returned with its strategy's outcome recorded; the unresolved ones are returned in order with their count and the resolutions in order; the stored conflicts are updated exactly when they are the list handed in |
| ConflictResolver.ConflictResolver.Alignment | infrastructure/conflict_resolver.py:388-406 | the report is the alignment report of the stored conflicts: ALIGNED exactly when none is stored, NEEDS_RESOLUTION exactly when one is critical |
| Executive.BudgetByDepartment | ceo_orchestrator.py:408-412 | one line per agent in table order, an absent impact counting as 0 |
| Executive.HeadcountByDepartment | ceo_orchestrator.py:413-417 | one line per agent in table order, an absent impact counting as 0 |
| Executive.TotalBudgetIsSumOfDepartments | ceo_orchestrator.py:356-412 | the total investment is the sum of the department lines |
| Executive.TotalHeadcountIsSumOfDepartments | ceo_orchestrator.py:357-417 | the total of new hires is the sum of the department lines |
| Executive.DepartmentBudgetWithinTotal | ceo_orchestrator.py:356-412 | with no negative impact, no department exceeds the total |
| Executive.TotalBudgetNonNegative | ceo_orchestrator.py:356 | with no negative impact, the total is non-negative |
| Executive.TruncateToInt | ceo_orchestrator.py:465-477 | `int()` of a float rounds toward zero |
| Executive.StrategicOptions | ceo_orchestrator.py:439-483 | three options: the full program at the totals over 90 days with confidence 0.85, the pilot at 60% of the budget and 60% of the headcount rounded toward zero over 180 days with 0.80, the minimal one at 30% over 45 days with 0.70 |
| Executive.OptionsStepDown | ceo_orchestrator.py:444-481 | with non-negative totals, each later option invests and hires no more at lower confidence; the pilot and the minimal option hire 60% and 30% of the total rounded toward zero; the minimal option is the fastest and the pilot the slowest |
| Executive.NegativeHeadcountTruncatesTowardZero | ceo_orchestrator.py:465 | a negative scaled headcount truncates toward zero, not down |
| Executive.DepartmentPlans | ceo_orchestrator.py:485-499 | one plan per agent in table order, carrying its recommendations, confidence, estimates and citations |
| Executive.AllRisks | ceo_orchestrator.py:359-362 | exactly the risks of some agent |
| Executive.Risks | ceo_orchestrator.py:359-418 | each risk of some agent appears once, and nothing else does |
| Executive.ExecutiveOutputOf | ceo_orchestrator.py:338-437 | the totals equal the department sums and the full-program option; the budget and headcount lines, the department plans, the options and the de-duplicated risks are exactly those of the outputs; target value and constraint are the goal's |
| Orchestrator.DigitRun | ceo_orchestrator.py:189 | the run of digits at a position is maximal |
| Orchestrator.SearchPercentFinds | ceo_orchestrator.py:189 | `re.search(r'(\d+)%')` succeeds exactly when a `%` follows a digit, and returns the leftmost match |
| Orchestrator.ParsedGoal | ceo_orchestrator.py:181-207 | the objective is improve_retention exactly when the lowered prompt mentions retention, else general with target 0.08; the CAC phrases take precedence over "within budget"; the same six departments every time |
| Orchestrator.ParsedTarget | ceo_orchestrator.py:185-191 | a retention prompt's target is the leftmost `N%` over 100, and 0.08 without one |
| Orchestrator.AgentsOf | ceo_orchestrator.py:264 | the agent of each task, in order |
| Orchestrator.DecomposedAgents | ceo_orchestrator.py:219-267 | a retention goal yields one task per registered agent, in order; any other goal yields none |
| Orchestrator.DecomposedTargets | ceo_orchestrator.py:223-257 | only the sales and marketing tasks carry a target, and it is the goal's |
| Orchestrator.RegisteredDistinct | ceo_orchestrator.py:65-72 | the six registered agents have different names |
| Orchestrator.Routed | ceo_orchestrator.py:273-275 | routing never adds tasks |
| Orchestrator.RoutedMembers | ceo_orchestrator.py:273-275 | a task is routed exactly when its agent is registered |
| Orchestrator.OutputPairsAt | ceo_orchestrator.py:279-299 | the k-th pair is the k-th routed task's agent and its output |
| Orchestrator.RouteOutputs | ceo_orchestrator.py:269-311 | the outputs dict has unique keys |
| Orchestrator.RouteOutputsLookup | ceo_orchestrator.py:269-311 | an agent has an output exactly when it is registered and got a task, and the output is for its last task |
| Orchestrator.RoutedLastValue | ceo_orchestrator.py:273-299 | the last pair assigned for an agent comes from its last task |
| Orchestrator.DecomposedRouting | ceo_orchestrator.py:219-311 | a retention goal's outputs are one per registered agent, in order |
| Orchestrator.RoutedAll | ceo_orchestrator.py:273-275 | tasks all addressed to registered agents are all routed |
| Orchestrator.OutputEntries | ceo_orchestrator.py:301-309 | one entry per routed task |
| Orchestrator.OutputEntriesAt | ceo_orchestrator.py:301-309 | the k-th entry is a MEDIUM AGENT_OUTPUT entry from the k-th task's agent, holding its output, tagged with agent and task type |
| Orchestrator.RoutedEscalation | ceo_orchestrator.py:286-318 | a routed output escalates exactly on low confidence, a budget above $500K or more than 20 hires |
| Orchestrator.EscalationsOf | ceo_orchestrator.py:313-336 | never more escalations than outputs |
| Orchestrator.EscalationsOfMembers | ceo_orchestrator.py:313-336 | an escalation exists exactly for each output the rules escalate, carrying its agent, the rule's reason and its estimates |
| Orchestrator.BudgetConstraint | ceo_orchestrator.py:105-114 | the constraint is `BUDGET-<dept>`, budget category, soft, with the budget as limit and half of it used |
| Orchestrator.DefaultConstraintPairs | ceo_orchestrator.py:101-115 | one pair per department, keyed by the constraint id |
| Orchestrator.ConstraintEntries | ceo_orchestrator.py:104-115 | one entry per default constraint |
| Orchestrator.DefaultConstraintsOnEmptyStore | ceo_orchestrator.py:101-115 | on an empty store the six constraints land as they are, in order |
| Orchestrator.DefaultConstraintsAllBudget | ceo_orchestrator.py:107-149 | the budget-category query returns every default constraint, in order |
| Orchestrator.DefaultConstraintsNeverViolated | ceo_orchestrator.py:112 | no usage update can raise an alert for a default constraint |
| Orchestrator.DefaultKeysDistinct | ceo_orchestrator.py:101-106 | the six constraint ids differ |
| Orchestrator.DefaultConstraintsSoft | ceo_orchestrator.py:112 | no default constraint is a hard limit |
| Orchestrator.LimitsOf | ceo_orchestrator.py:152 | the limits map has exactly the constraint ids as keys |
| Orchestrator.BudgetLimitsKeyedByConstraintId | ceo_orchestrator.py:152 | no registered department name is a key of the limits map |
| Orchestrator.BareReports | ceo_orchestrator.py:286-299 | the routed dicts carry none of the sections the conflict passes read |
| Orchestrator.Orchestrator.constructor | ceo_orchestrator.py:57-75 | the default goal and budget constraints are added to the store, the callbacks hear of each new entry in order, and the resolver starts empty |
| Orchestrator.Orchestrator.InitializeDefaultContext | ceo_orchestrator.py:77-115 | the retention goal, then the six budget constraints in order, each with its entry; the callbacks hear of each new entry in order |
| Orchestrator.Orchestrator.AddDefaultBudgets | ceo_orchestrator.py:100-115 | the six constraints are added in order, one entry each; the callbacks hear of each new entry in order |
| Orchestrator.Orchestrator.AddBudget | ceo_orchestrator.py:104-115 | one loop step adds one constraint and its entry, and the callbacks hear of that entry |
| Orchestrator.Orchestrator.RouteTasks | ceo_orchestrator.py:269-311 | the outputs dict is built, and one entry is stored per routed task; tasks for unknown agents are skipped; the callbacks hear of each new entry in order |
| Orchestrator.Orchestrator.LogOne | ceo_orchestrator.py:273-309 | one loop step stores an entry exactly for a registered agent, and the callbacks hear of exactly the entries stored |
| Orchestrator.Orchestrator.StoreOutput | ceo_orchestrator.py:301-309 | one AGENT_OUTPUT entry is stored and the callbacks hear of it |
| Orchestrator.Orchestrator.CheckGovernance | ceo_orchestrator.py:313-336 | the loop collects the escalations of the outputs, in table order |
| Orchestrator.Orchestrator.ProcessPrompt | ceo_orchestrator.py:117-179 | the executive output for the parsed goal's tasks; one entry per routed output and one HIGH executive entry are stored, and the callbacks hear of each in order; goals, constraints and callbacks are untouched |
| Orchestrator.Orchestrator.Execute | ceo_orchestrator.py:141-179 | routing, conflict handling, governance and the executive entry, in order; the callbacks hear of each new entry in order and are themselves untouched |
| Orchestrator.Orchestrator.Align | ceo_orchestrator.py:146-158 | conflict detection on the routed dicts finds nothing, so the status is ALIGNED |
| Orchestrator.Orchestrator.StoreExecutive | ceo_orchestrator.py:169-177 | one HIGH entry tagged with the prompt id is stored and the callbacks hear of it |
| Orchestrator.RoutedStep | ceo_orchestrator.py:273-275 | a task is routed after the earlier ones exactly when its agent is registered |
| Orchestrator.RouteOutputsStep | ceo_orchestrator.py:287 | routing a task assigns its output under its agent's name |
| Orchestrator.RouteOutputsSkip | ceo_orchestrator.py:275 | a task for an unknown agent changes nothing |

## Left out

- Locks, threads and the `RLock` around every store operation are not modelled; each operation is atomic.
- Allocate: its own contract gives only the per-request bound and conservation; which requests the greedy loop funds, and with how much, is stated by the separate lemma ConflictResolver.AllocateGreedy, and only for non-negative requests (a negative request can raise the remainder, and no closed form is stated for that case).
- SharedMemory.SharedMemory.Notify: callbacks are modelled as a name and a raise-or-not function of the entry. The Python callback receives the live entry object and runs while the store is mid-operation, so it could mutate the stored entry or call back into the store. The model assumes callbacks do neither: no mutation through a shared reference and no re-entry. Under that assumption a raising callback changes nothing.
- AuditLogger.AuditLogger.Notify: the same assumption. The callback gets the live record object and could mutate it or call `log_decision` again; the model assumes it does neither.
- AuditLogger.AuditLogger.VerifyIntegrity: records are values here. In Python, `get_record`, the callbacks and any caller holding a record share the stored object and can change its fields after the hash was taken, which would make `verify_integrity` false. The lemma that every logged id verifies under the invariant holds only under the assumption that no record is mutated outside the logger's own methods.
- SHA-256 is modelled as an arbitrary digest function held by the logger. Every proof holds for any digest; tamper detection assumes an injective one.
- The clock (`datetime.now()`), the `strftime('%Y%m%d')` date text and `uuid4` are parameters (`now`, `day`, `uuidHex`, `promptId`). Times are integer seconds, so `isoformat()` rendering is not modelled.
- Floats are modelled as exact reals. `round(avg, 3)` in the audit report is not modelled, so AuditLogger.ReportOf states the unrounded mean.
- `lower()`, `upper()`, `capitalize()` and `\d` are modelled on ASCII only.
- `list(set(...))` has an unspecified order in Python; the model keeps first-occurrence order and states only membership and the absence of repeats.
- `get_goal`, `get_constraint`, `get_agent_outputs`, `get_recent_context`, `export_snapshot`, `export_json`, `to_dict`, `get_record` (modelled as AuditLogger.AuditLogger.Get), `format_output_for_display` and `_generate_summary` are reporting and serialisation helpers outside this model.
- `process_prompt` (ceo_orchestrator.py:130-135), `_parse_prompt` (ceo_orchestrator.py:209-215) and `_decompose_goal` (ceo_orchestrator.py:259-265) call `audit_logger.log`, which the audit logger does not have; the last two also name `AuditLevel`, which the module never imports. As written each of these calls raises, so `process_prompt` never gets past its first statement. The model leaves the three calls out and models what the code around them does: Orchestrator.ParsedGoal, Orchestrator.DecomposedAgents and Orchestrator.Orchestrator.ProcessPrompt describe the code with those calls removed.
- `_check_governance` (ceo_orchestrator.py:329) calls `audit_logger.log_escalation`, which does not exist either; the model leaves the call out, so Orchestrator.Orchestrator.CheckGovernance returns the escalations it collects.
- `_generate_executive_output` (ceo_orchestrator.py:434) calls `generate_report(prompt_id)`, which passes the prompt id as `start_date`. Comparing a record's `datetime` with that string raises once any record exists; with no record the call returns `{"total_decisions": 0}`. The audit summary is left out of the executive output.
- The agents' own `process_task` logic and the enterprise data store are not part of this model. An agent's work is the function parameter `process`, and any store writes an agent makes itself are not modelled.
- The KPI list and the strategic-goal text are formatted from the goal's target value (ceo_orchestrator.py:369, 381 and 403, as percentages with `:.0%`); the model keeps the target value in the executive output but does not model the formatted text. The fixed assumption and dependency lists and the option descriptions are constant text and are not modelled.
- The `task.get("type", "general")` default is not modelled, since every decomposed task has a type.
- `process_prompt` computes the active goals and the `current_usage` map but the conflict passes never read them; the model leaves them out.
- Orchestrator.ConstraintEntries: the per-index shape of each default constraint entry is not stated as a lemma; AddDefaultBudgets states the entries as this function of the pairs.
- Governance.Governance.ApprovalSummaryOf: `by_status` is keyed by the status value text in the source and by the status itself here; the value texts are distinct, so the counts agree.
- The singleton getters `get_shared_memory`, `get_audit_logger` and `get_governance` are not modelled; the orchestrator receives its store as a constructor argument.
- Orchestrator.Orchestrator.ProcessPrompt: requires every agent output to be escalatable. The routed dict holds `budget_impact` and `headcount_impact` even when they are None, and `should_escalate` then raises on the comparison unless an earlier rule fires. The model requires that this does not happen; Orchestrator.Orchestrator.Execute, Orchestrator.Orchestrator.CheckGovernance and Orchestrator.EscalationsOf carry the same requirement, and Governance.ShouldEscalateFirstRule requires the rule inputs it compares to be defined.
- `_detect_budget_conflict` reads `company_context.budget_limits` as an attribute, but the orchestrator passes a dict. That read happens only for an output with a budget request, and the routed dicts never carry one, so the model passes the limits map directly.
