# Verified model of the connector self-healing service

This project models three parts of the service and proves properties of them with Dafny.
`dafny verify dfyconfig.toml` checks everything.

**1. The healing protocol** (`ConnectorNames`, `Healing*`). A queue item is its append-only
event log; the counters and the latest event are projections of that log. One step reads the
item, observes the connector, appends events, picks a rung of the escalation ladder and runs a
saga of requests against Kafka Connect. Every database write and every request is answered from
a script of replies, and a reply can fail before or after the effect took place, with or without
a timeout. So one step is a function of the state and of everything the outside answers, and a
run interleaves steps with restarts of the process. `HealingService` has the classes in the
source's imperative form; each method is proved equal to the step function, and its driver over
polls and process restarts carries the theorems about runs to the objects.

**2. The analytics compiler** (`Analytics*`). A typed plan is compiled to a relational query.
The evaluator gives what SQLite answers: missing values, three-valued comparison, outer joins
with their fan-out, grouping, HAVING against a population mean, the latest-row window, ordering
and limit in whatever order groups are produced. `AnalyticsMeaning` says what the plan asks for
without joins, aggregates or three-valued logic, and the two are proved equal. The validator
that runs after execution is a method with loops, proved against a declarative predicate.

**3. The retrieval algorithms** (`Rag*`, with the sorting laws of `Sorting`). nDCG, greedy chunk packing, diversified selection,
section-coverage repair, the evidence gate, and synchronisation of the vector index.

## What was found

* *At most one running connector.* It holds after every request of every run, whatever fails,
  unless a process restart forgets an unknown outcome, because the set of uncertain actions is
  only in memory (`src/self_healthy_kafka/healing/db_state_machine.py:203-206`).
  `HealingDirtyRestart.DirtyRestartRunsTwo` gives such a run for every connector name.
  `HealingStray.RestartRunsTwo` says exactly when such a restart does harm, for every state: if
  and only if another connector of the lineage runs at the restart and the item may still start a
  second one, by a pending retry with its offsets, by a fresh recreate in budget whose name is
  free, or by a first recreate that succeeds, that fails before such a fresh one, or whose create
  times out on the name of a stopped connector. An item that is restart-only, terminal or
  already recreated without offset is harmless, and so is a restart at which nothing but the
  current connector runs.
* *Fresh names* hold on every run in which nothing raises outside an action and no restart
  forgets an unknown outcome; writes inside actions may fail. Otherwise a
  `STATE_MACHINE_ERROR` row becomes the latest event and hides the name on record:
  `HealingNameReuse.LostWriteRepeatsName` is a run of four polls with one lost write that creates
  the same name twice, and `HealingNameReuse.NameRepeats` says that a hidden name is created again
  if and only if a recreate is still in budget.
* *Order of the ladder and termination* are proved for working persistence, since the same error
  row hides the rung. The log budgets, the request budgets of one process, offset carry-over, the
  restart-only guarantee and quarantine hold under every failure and are stated without that
  condition.
* *The confirm window* applies to recoveries after a restart or a recreate that succeeded. After a
  failed or timed-out recreate, a failed resume or an error row a healthy check completes the item
  at once; `HealingStability.CompletesExactly` is the exact condition. The window does not restart
  at an administrative stop.
* *Limited rankings* have one answer if and only if no two different groups that agree on every
  asked key, and on every group output other than an ordered timestamp, reach the cut
  (`AnalyticsTies.RankingDetermined`). An ordered timestamp is compared by instant and then not
  completed by its text, so two spellings of one instant tie; `AnalyticsSpellings.TwoAnswers` has
  a plan and two incidents with two answers.
* *The validator* accepts every untruncated result with a metric. A plain listing whose rows all
  fit passes if and only if no two selected members agree on every dimension
  (`AnalyticsSoundness.ProjectionAccepted`).
## Model

| member | source | states |
|---|---|---|
| ConnectorNames.ZeroPad | src/self_healthy_kafka/healing/offset_recovery.py:41-46 | padding keeps the number a run of digits parses to, and pads to the old width or beyond it |
| ConnectorNames.SplitJoin | src/self_healthy_kafka/healing/offset_recovery.py:14-17 | printing a base and digits and parsing the name gives both back |
| ConnectorNames.NextVersion | src/self_healthy_kafka/healing/offset_recovery.py:41-56 | the next name keeps the base and raises the parsed number by one, exactly for names that are not empty |
| ConnectorNames.SuccessorSequence | src/self_healthy_kafka/healing/offset_recovery.py:41-56 | after any number of steps the base is kept and the number has grown by as many |
| ConnectorNames.SuccessorsDistinct | src/self_healthy_kafka/healing/offset_recovery.py:41-46 | repeated successors are pairwise different |
| HealingDomain.ProjectCounts | scripts/seed_healing_samples.py:122-138 | every counter of the projection is the number of rows of its kinds, and the latest event is the last row |
| HealingDomain.ClampMasksNoThreshold | src/self_healthy_kafka/domain/healing.py:64-70 | clamping the failed count at the policy maximum never changes a decision |
| HealingWorld.Record | sql/ingest_reference/stored-procedures/spInsertConnectorHealingLog.sql:12-57 | an applied insert appends one row unless it repeats the confirmation; a failed one may or may not have been applied |
| HealingWorld.CreateConnector | src/self_healthy_kafka/connect/client.py:183-202 | a create that raised left the cluster as it was or with that one connector; a conflict changes nothing |
| HealingWorld.StopConnector | src/self_healthy_kafka/connect/client.py:264-282 | a stop that reported success left the connector not running, and no stop starts anything |
| HealingWorld.PatchOffsets | src/self_healthy_kafka/connect/client.py:235-262 | a patch that reported success left exactly the offsets on a stopped connector, and no patch starts or stops anything |
| HealingSafety.StepSafe | src/self_healthy_kafka/healing/db_state_machine.py:179-312 | one poll keeps the single-runner invariant, whatever the replies |
| HealingSafety.AtMostOneRuns | src/self_healthy_kafka/healing/actions.py:141-301 | after every request of every run at most one connector of the lineage runs, and only the current one while automation may continue; a process restart may strike a closed item, a known outcome, or an unknown outcome that left nothing but the current connector running |
| HealingDirtyRestart.DirtyRestartRunsTwo | src/self_healthy_kafka/healing/db_state_machine.py:203-206 | for every name, a run whose restart forgets a finished but unrecorded recreate ends with two replacements running |
| HealingStray.RestartRunsTwo | src/self_healthy_kafka/healing/policy.py:45-127 | for every open state: after a process restart, polls with a working database can leave two connectors running if and only if a connector other than the current one runs and a recreate that starts a second one is open to the item |
| HealingStray.HarmlessRestart | src/self_healthy_kafka/healing/db_state_machine.py:203-263 | after every other restart at most one connector runs between all requests, for as long as the database works |
| HealingStray.RestartOfRunRunsTwo | src/self_healthy_kafka/healing/db_state_machine.py:203-206 | the same condition for the first such restart of a run |
| HealingBudgets.LogBudgets | src/self_healthy_kafka/healing/policy.py:45-127 | on every run with any failures and process restarts: one confirmation, restarts within the policy, one result of a recreate without offset |
| HealingBudgets.RequestBudgets | src/self_healthy_kafka/healing/db_state_machine.py:496-517 | one process never requests more restarts or fresh creates than the budgets, even when the rows that count them are lost |
| HealingBudgets.RaisedActionIsQuarantined | src/self_healthy_kafka/healing/db_state_machine.py:496-517 | an action that raises leaves the item quarantined and no request follows it in that step |
| HealingBudgets.QuarantinedStep | src/self_healthy_kafka/healing/db_state_machine.py:258-263 | a poll of a quarantined item requests nothing and keeps it quarantined |
| HealingBudgets.QuarantineHolds | src/self_healthy_kafka/healing/db_state_machine.py:203-263 | no later poll of the process touches Kafka Connect under any database failures, and one poll with a working database closes the item with a terminal event |
| HealingStability.StepStable | src/self_healthy_kafka/healing/db_state_machine.py:339-382 | the watching invariant is kept by a poll, and a recorded recovery has its evidence |
| HealingStability.RecoveryIsStable | src/self_healthy_kafka/healing/db_state_machine.py:321-360 | a recovery after an action follows a healthy check strictly after it, a full confirm window ago, with nothing but healthy checks and administrative stops since |
| HealingStability.CompletesExactly | src/self_healthy_kafka/healing/db_state_machine.py:321-360 | with a working database a healthy check completes the item if and only if its latest row is not terminal, the wait is over, and the row is no restart or successful recreate or the confirm window after it has passed |
| HealingProgress.UnhealthyProgress | src/self_healthy_kafka/healing/db_state_machine.py:419-494 | an unhealthy check is logged once and lowers the measure of what remains |
| HealingProgress.StepProgress | src/self_healthy_kafka/healing/policy.py:45-98 | a poll with working persistence keeps the item on the ladder with its measure within the budget |
| HealingProgress.TerminatesInTime | src/self_healthy_kafka/healing/policy.py:45-127 | at most max_failed_count + 3 unhealthy observations are processed; the last one leaves the item escalated with a terminal event at the end of its log |
| HealingHistory.LadderOrder | src/self_healthy_kafka/healing/policy.py:76-112 | offsets are captured at most once and only after the connector-restart budget is spent, and no restart follows a capture or a result of a recreate |
| HealingHistory.ValidHistory | scripts/seed_healing_samples.py:252-296 | the run-level invariants the generator checks: numbering of attempts, confirmation before any restart, and how closed items end |
| HealingHistory.RestartOnlyRun | src/self_healthy_kafka/healing/helpers.py:50-55 | a restart-only item never stops, creates, patches, resumes or deletes a connector, on any run with any failures |
| HealingOffsets.OffsetsCarryOver | src/self_healthy_kafka/healing/actions.py:96-270 | a recorded recreate with offset leaves the recorded connector with exactly the offsets captured last, and nothing is resumed before a successful patch, also across timeouts and retries |
| HealingOffsets.RestoredRows | scripts/seed_healing_samples.py:122-138 | the connector last restored and the offsets last captured, read off the rows |
| HealingOffsets.RetryCarries | src/self_healthy_kafka/healing/actions.py:303-429 | a retry patches the offsets that the timed-out recreate carried in the log |
| HealingFreshNames.ReplacementNamesFresh | src/self_healthy_kafka/healing/actions.py:431-438 | every create other than a retry uses a name that neither the incident nor an earlier create used, as long as nothing raises outside an action and no restart forgets an unknown outcome |
| HealingReach.ReliableIsUndisturbed | src/self_healthy_kafka/healing/db_state_machine.py:203-244 | a run with working writes meets that condition and never keeps an unknown outcome |
| HealingNameReuse.NameRepeats | src/self_healthy_kafka/healing/offset_recovery.py:8-46 | an open item that lost the name on record repeats its next name, if that was created already, exactly when a recreate is in budget; otherwise nothing is created any more, whatever fails |
| HealingNameReuse.DisplacedNameRepeats | src/self_healthy_kafka/healing/db_state_machine.py:221-232 | one lost write after a failed recreate hides its name, which is then repeated exactly when a recreate is in budget |
| HealingNameReuse.LostWriteRepeatsName | src/self_healthy_kafka/healing/db_state_machine.py:221-232 | for every name, a run of four polls with one lost write creates the same replacement twice |
| HealingService.HistoryStore.RecordConnectorLog | scripts/seed_healing_samples.py:160-178 | the store's state after an insert is the specified one |
| HealingService.ConnectClient.Create | src/self_healthy_kafka/connect/client.py:183-202 | the client's state and result after a create are the specified ones |
| HealingService.ConnectorStateMachine.RestartAndLog | src/self_healthy_kafka/healing/action_services/restart.py:29-91 | request, then one row; a raised request logs nothing |
| HealingService.ConnectorStateMachine.RecreateWithOffset | src/self_healthy_kafka/healing/actions.py:90-301 | the whole new state and outcome of the saga, for every script of replies |
| HealingService.ConnectorStateMachine.RetryTimedOutRecreateWithOffset | src/self_healthy_kafka/healing/actions.py:303-429 | the whole new state and outcome of the retry |
| HealingService.ConnectorStateMachine.RecreateWithoutOffset | src/self_healthy_kafka/healing/actions.py:431-510 | the whole new state and outcome of the fresh recreate |
| HealingService.ConnectorStateMachine.DeleteFailedVersionedConnector | src/self_healthy_kafka/healing/actions.py:596-625 | what is deleted after a replacement, and what is kept |
| HealingService.ConnectorStateMachine.DispatchDecision | src/self_healthy_kafka/healing/db_state_machine.py:519-607 | level check and dispatch, with escalation after a failed retry or fresh recreate |
| HealingService.ConnectorStateMachine.ExecuteDecision | src/self_healthy_kafka/healing/db_state_machine.py:496-517 | dispatch, or quarantine when it raises |
| HealingService.ConnectorStateMachine.HandleUnhealthyCheck | src/self_healthy_kafka/healing/db_state_machine.py:419-494 | observation, confirmation, decision and execution |
| HealingService.ConnectorStateMachine.HandleHealthyCheck | src/self_healthy_kafka/healing/db_state_machine.py:327-360 | recovery at once, or after the confirm window following an action |
| HealingService.ConnectorStateMachine.RecordRecovery | src/self_healthy_kafka/healing/db_state_machine.py:362-417 | superseded connectors are deleted, then the recovery is recorded and the item completed |
| HealingService.ConnectorStateMachine.Process | src/self_healthy_kafka/healing/db_state_machine.py:250-325 | the branches of one observation |
| HealingService.ConnectorStateMachine.ProcessJobSafely | src/self_healthy_kafka/healing/db_state_machine.py:179-244 | one poll has the new state of the model's step; it keeps the single runner, carries the captured offsets into every recorded recreate, and requests nothing for a quarantined item |
| HealingService.ConnectorStateMachine.ProcessInputs | src/self_healthy_kafka/healing/db_state_machine.py:179-244 | over polls and process restarts the objects keep the log and request budgets, patch before they resume, stay silent in quarantine, use fresh names, end in time and run one connector, under the conditions of the theorems about runs |
| AnalyticsPopulation.FilterMeans | notebooks/shared/semantic_plan.py:547-585 | a compiled filter is true on exactly the rows that meet the criterion |
| AnalyticsPopulation.WhereMeans | notebooks/shared/semantic_plan.py:673-680 | the compiled condition keeps exactly the members in scope; OR filters never weaken the success constraints |
| AnalyticsPopulation.LeftJoinIsParent | notebooks/shared/semantic_plan.py:615-621 | with unique identities the outer join gives every event one row, with its incident or none |
| AnalyticsMetrics.IncidentCountMeans | notebooks/shared/semantic_plan.py:640-641 | COUNT(DISTINCT QueueId) is the number of incidents in the group |
| AnalyticsMetrics.RelatedLogsSum | notebooks/shared/semantic_plan.py:654-661 | the sum of the correlated counts counts each log of the group's incidents once |
| AnalyticsMetrics.AverageMeans | notebooks/shared/semantic_plan.py:637-643 | the rounded average is the mean over readable, nonnegative durations, missing when there are none |
| AnalyticsMetrics.AggregateMeans | notebooks/shared/semantic_plan.py:639-671 | every compiled aggregate is the catalog's number about the group |
| AnalyticsCorrectness.BaseDescribes | notebooks/shared/semantic_plan.py:622-684 | the base query has one row for each group, no more, with the members' values and measures |
| AnalyticsCorrectness.HavingMeans | notebooks/shared/semantic_plan.py:685-713 | a group passes exactly when its measure stands in the asked relation to the number or to the mean over all groups |
| AnalyticsLatest.LatestJoinsOnce | notebooks/shared/semantic_plan.py:714-720 | a root that occurs in the table joins exactly its latest incident |
| AnalyticsCorrectness.CandidatesMean | notebooks/shared/semantic_plan.py:547-728 | before ordering, the compiled query returns exactly the rows the plan means, for every table with unique identities |
| AnalyticsAnswers.MeaningIsUnique | notebooks/shared/semantic_plan.py:622-728 | the meaning of a plan over given tables is one bag of rows |
| AnalyticsAnswers.CompilerCorrect | notebooks/shared/semantic_plan.py:448-749 | whatever the database returns for a compiled plan is the meant rows in the asked order, cut to the limit |
| AnalyticsTies.QueryDetermined | notebooks/shared/semantic_plan.py:726-744 | every query has one answer if and only if no two different tied rows reach the limit |
| AnalyticsTies.RankingDetermined | notebooks/shared/semantic_plan.py:726-744 | a compiled ranking with a limit has one answer if and only if no two different groups that agree on every asked key, and on every group output but ordered timestamps, reach the limit |
| AnalyticsTies.TopNDeterministic | notebooks/shared/semantic_plan.py:726-744 | a limited, ordered ranking has one answer when no asked key is a timestamp dimension |
| AnalyticsSpellings.TwoAnswers | notebooks/shared/semantic_plan.py:733-736 | a plan over two incidents received at one instant in two spellings has two different answers |
| AnalyticsJoins.CorrelatedIsJoined | notebooks/evaluation/evaluate.py:26-29 | on every table the correlated log count equals the count of the reference outer join |
| AnalyticsJoins.LogsDoNotMatter | notebooks/shared/semantic_plan.py:639-652 | changing the logs never changes the answers of an incident plan that does not count logs |
| AnalyticsJoins.LogCountsAddUp | notebooks/shared/semantic_plan.py:615-661 | event-grain log counts sum to the number of selected logs, orphans included |
| AnalyticsValidator.ValidateResult | notebooks/shared/semantic_plan.py:793-879 | the check passes if and only if shape, grain, domains, duration arithmetic and limit are sound |
| AnalyticsSoundness.ValidatorAccepts | notebooks/shared/semantic_plan.py:793-879 | every untruncated result of a compiled plan with a metric passes the check |
| AnalyticsSoundness.ProjectionAccepted | notebooks/shared/semantic_plan.py:828-837 | a complete listing without metrics passes exactly when no two members agree on every dimension |
| AnalyticsService.CollectFilters | notebooks/shared/semantic_plan.py:547-585 | the filter loop gives every condition in order, or the first error |
| AnalyticsService.CompleteOrder | notebooks/shared/semantic_plan.py:737-743 | the loop appends exactly the group outputs that are not ordered yet |
| AnalyticsService.CompilePlan | notebooks/shared/semantic_plan.py:448-749 | the compiler's result, with every check in the source's order |
| AnalyticsIndependent.CompileIndependentPlan | notebooks/shared/semantic_plan.py:752-776 | the loop over the populations gives every child and column, or the first refusal |
| AnalyticsIndependent.IndependentCorrect | notebooks/shared/semantic_plan.py:752-776 | one row, with every measure taken over its own population |
| AnalyticsIndependent.IndependentAccepted | notebooks/shared/semantic_plan.py:793-879 | every result of an independent plan passes the check |
| RagRanking.SummationByParts | src/self_healthy_kafka/rag/evaluation.py:404-416 | dominated prefixes give a smaller discounted sum, equal only if all prefixes are equal |
| RagRanking.TopSum | src/self_healthy_kafka/rag/evaluation.py:411-415 | no different ids have more gain together than as many first ids of the ideal order |
| RagRanking.NdcgBounds | src/self_healthy_kafka/rag/evaluation.py:404-416 | nDCG of different ids lies between 0 and 1, and is 1 exactly when the first places hold relevant ids in descending relevance |
| RagRanking.IdealExists | src/self_healthy_kafka/rag/evaluation.py:411 | every relevance map has an ideal order |
| RagRanking.SortedIsIdeal | src/self_healthy_kafka/rag/evaluation.py:411 | sorting the relevance values gives the scores of every ideal order |
| RagRanking.GradedNdcg | src/self_healthy_kafka/rag/evaluation.py:404-416 | the accumulating loops compute nDCG against the ideal scores, in whatever order the relevance map lists its values |
| RagChunking.SplitKeeps | src/self_healthy_kafka/rag/chunking.py:180-195 | the pieces of a paragraph fit the limit, are stripped and hold all of its text |
| RagChunking.SplitOversizedParagraph | src/self_healthy_kafka/rag/chunking.py:180-195 | the splitting loop ends and gives the specified pieces |
| RagChunking.PackIsPacking | src/self_healthy_kafka/rag/chunking.py:167-176 | greedy groups are a division of the pieces in order, and every group fits |
| RagChunking.GreedyIsMinimal | src/self_healthy_kafka/rag/chunking.py:167-176 | no division of the same pieces in order has fewer groups |
| RagChunking.ChunksKeepText | src/self_healthy_kafka/rag/chunking.py:159-177 | every body fits and the chunks hold the section's text up to white space |
| RagChunking.ChunksAreFewest | src/self_healthy_kafka/rag/chunking.py:159-177 | a section becomes the fewest chunks of any division of its pieces |
| RagChunking.SectionChunks | src/self_healthy_kafka/rag/chunking.py:159-177 | the nested loops compute the greedy packing |
| Sorting.SortPermuted | src/self_healthy_kafka/rag/retriever.py:179 | sorting by an order that separates the elements does not depend on their order before |
| Sorting.CutIsFixedExactly | notebooks/shared/semantic_plan.py:737-745 | the first places of an unstable sort are determined if and only if no two different tied elements reach them |
| RagSelection.SelectionIgnoresOrder | src/self_healthy_kafka/rag/retriever.py:172-208 | permuting candidates with different points does not change the selection |
| RagSelection.PrefixIsFair | src/self_healthy_kafka/rag/retriever.py:201-208 | wherever the round robin stops, a runbook holds its best chunks and leads no open one by more than one |
| RagSelection.SelectionIsFair | src/self_healthy_kafka/rag/retriever.py:172-208 | length is the limit or all quotas together, each runbook contributes its best chunks in order, and none leads an open one by more than one |
| RagSelection.TakeTurns | src/self_healthy_kafka/rag/retriever.py:201-208 | the nested loops with their early return compute the cut round robin |
| RagSelection.SelectRankedChunks | src/self_healthy_kafka/rag/retriever.py:172-208 | the selection and the number of repeated points removed |
| RagCoverage.CoverKeeps | src/self_healthy_kafka/rag/retriever.py:258-299 | one repair keeps the limit, adds no repetition and evicts no requested section |
| RagCoverage.SectionsAreCovered | src/self_healthy_kafka/rag/retriever.py:226-310 | each requested section that the strongest runbook has is present, or the selection is full of requested sections |
| RagCoverage.PresentedInOrder | src/self_healthy_kafka/rag/retriever.py:297-310 | chunks are presented by the place of their section among the requested ones |
| RagCoverage.RequestedLead | src/self_healthy_kafka/rag/retriever.py:297-310 | no chunk of another section stands before a requested one, and requested sections stand in the requested order |
| RagCoverage.FindVictim | src/self_healthy_kafka/rag/retriever.py:276-296 | the backward search finds the last place that may give way |
| RagCoverage.EnsureSectionCoverage | src/self_healthy_kafka/rag/retriever.py:226-310 | the loops compute the repair, and an unchanged answer means the same points in the same order |
| RagCoverage.BudgetHolds | src/self_healthy_kafka/rag/retriever.py:70-89 | the context stays within its budget, only its last chunk is shortened, and chunks are left out only when the budget or their number is exhausted |
| RagCoverage.FillContext | src/self_healthy_kafka/rag/retriever.py:70-89 | the loop with its skips and stops fills the context as specified |
| RagEvidence.MarginMeans | src/self_healthy_kafka/rag/retriever.py:136-151 | the margin of the sorted best scores is too small exactly when another runbook comes within it of the strongest chunk |
| RagEvidence.GateMeans | src/self_healthy_kafka/rag/retriever.py:113-153 | exactly when the gate accepts, and that it then passes all ranked candidates on |
| RagEvidence.ApplyEvidenceGate | src/self_healthy_kafka/rag/retriever.py:113-153 | the gate's result and reason |
| RagIndexSync.SyncConverges | src/self_healthy_kafka/rag/qdrant_store.py:164-207 | from any earlier state the tenant's index becomes the desired one and other points stay |
| RagIndexSync.CountsAddUp | src/self_healthy_kafka/rag/qdrant_store.py:177-185 | inserted, updated and unchanged are all the desired chunks |
| RagIndexSync.SecondSyncIsIdle | src/self_healthy_kafka/rag/qdrant_store.py:164-207 | a second synchronisation writes and removes nothing |
| RagIndexSync.InterruptionIsHarmless | src/self_healthy_kafka/rag/qdrant_store.py:186-207 | completing an interrupted synchronisation ends where an uninterrupted one would have |
| RagIndexSync.RunbookIndex.ExistingPayloads | src/self_healthy_kafka/rag/qdrant_store.py:406-428 | the scroll loop ends and knows every payload hash of the tenant |
| RagIndexSync.RunbookIndex.UpsertWithRetry | src/self_healthy_kafka/rag/qdrant_store.py:499-508 | repeated upserts have the effect of one, or of none when all failed |
| RagIndexSync.RunbookIndex.WriteBatches | src/self_healthy_kafka/rag/qdrant_store.py:560-562 | batches write the items in order, all of them or some first ones |
| RagIndexSync.RunbookIndex.Sync | src/self_healthy_kafka/rag/qdrant_store.py:164-207 | the new index and the report of a complete synchronisation, and what an interrupted one may leave |

## Left out

Healing:

- Several items at once: discovery of failed connectors, the tick over the queue, per-name locks and jobs read before the lock is taken; the model takes one item with an atomic fresh read in each step.
- The status circuit breaker, webhooks, alerts (a step only learns whether an alert confirmed the failure) and event texts with their redaction.
- Extraction of change numbers, the text of the rebuilt connector configuration and its snapshot settings; the model keeps whether a configuration could be read, is empty, and has a schema topic.
- Connector names with line breaks or digits outside ASCII.
- HealingSafety.AtMostOneRuns: a create whose effect arrives only after its step has ended, and an outsider who resumes a connector, are not modelled.
- HealingStray.RestartRunsTwo: continuations whose database fails after the restart; HealingSafety.AtMostOneRuns covers those of them whose restarts are clean.

Analytics:

- The JSON shape of plans (unknown or missing keys, size in bytes, types that are not the typed plan's), SQL text, parameter names and the SQL parser; plans and queries are trees.
- An empty `having` or `order_by` list in an independent population, which the source refuses and the typed plan cannot tell from an absent one.
- Calendar arithmetic: the instant, the local bucket and the UTC form of a text are parameters.
- Floating-point rounding; averages and rates are exact before the two-decimal rounding.
- Byte-limit truncation of results; the validator refuses such results.

Retrieval:

- Embeddings, fusion, filters and the search request; candidates are a sequence of scored chunks.
- Canonical anchor texts; whether a candidate matches is a parameter of the evidence gate.
- Redaction, the chunk prefix and its final cut, content hashes and point identities of chunks; the mapping from a purpose to sections.
- The logarithm and the power of nDCG: the results hold for every gain that grows strictly from zero and every positive discount that falls strictly with the rank.
- Recall, reciprocal rank, percentiles and the promotion gate, which would add only easy members.
- Other operations on the collection, and tenants that share a point identity.
