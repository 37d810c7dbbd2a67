# Verified model of the agentic study-planning backend

This project models the decision-making core of the backend in Dafny and proves what it promises over
every input, every run and every crash:

- **Durable approval** (`ApprovalProtocol`, `ApprovalInvariant`, `ApprovalTheorems`, `ApprovalRecovery`,
  `ApprovalCounters`, `ApprovalOutcomes`, `ApprovalService`, `ApprovalWitnesses`). A human decision, the graph
  checkpoint, the audit rows and the domain writes commit separately. One run is a step system whose events are
  submissions (also resent ones), atomic commits and crashes. An inductive invariant over all stores gives
  at-most-once writes, no write without a committed decision that a user submitted, the approval history,
  truthful outcomes, the outcome that each decision leads to, and the exact condition under which a resend
  recovers. `ApprovalService` contains the procedures themselves, updating the stores in place, each proved to
  leave the stores exactly where the step system leaves them, wherever the process dies.
- **Audit rows** (`ToolExecutions`, `ReceiptText`): claim, dispatch, completion, failure and replay of one
  approved action, and the receipt text that a replay parses back.
- **The eight-node graph** (`AgentState`, `AgentNodes`, `AgentGraph`, `AgentVisits`): nodes as state
  transformers, routes, termination, and when exactly a run has which outcome, error and counters.
  `PlanGeneration` is the retry loop inside one node.
- **Refresh credentials** (`RefreshTokens`): login, rotation, logout and password change under a user row
  lock, for every interleaving and every clock.
- **Prompt budget**: cutting one text (`PromptText`), the list sections (`PromptLists`), goal and feedback
  (`PromptGoal`), the two passes over the sections (`PromptBudget`), what they promise (`PromptLedger`), the
  records with their field limits and their serialization (`PromptRecords`), how the total is exceeded
  (`PromptOverrun`), and the reading of a prompt by a reader that knows nothing about its request
  (`JsonText`, `PromptReading`, `PromptEvidence`).
- **Public event stream** (`AgentEvents`) and its resumption on another snapshot (`EventSnapshots`).
- **Tool loop and its streaming driver** (`AgentLoop`, `AgentRounds`), **document chunking**
  (`DocumentChunks`), **rank fusion** (`RankFusion`, `Sorting`), **token metrics** (`RunMetrics`).

Everything outside the program is a parameter. `Answer`, `Reply`, `Environment` and `Attempt` hold what
providers, approvers, tools, clocks and commits answer; `Fingerprinter`, `Verifier` and `Marks`
are unknown functions. The prompt theorems hold for every escape of single characters and every manifest;
`PromptRecords` has the program's own. The fingerprint is assumed injective only in
`ApprovalTheorems.WritesComeFromApprovedProposal`.

## Assumptions

- A commit is atomic, and every graph node saves its checkpoint before the next one starts.
- The run's advisory lock is held for a whole submission and the user row lock for a whole transaction.
- The five exceptions that the coordinator calls safe are raised only by calls that wrote nothing
  (subset type `ToolExecutions.Dispatch`). Any other exception may or may not have written.
- Two executions, or two approvals, of one run have different ids (`AgentEvents.DistinctRows`).
- A floating-point operation on the unit interval is off by at most a millionth (`RankFusion.Precise`).
- The serialized empty lists fit into their own budgets (`PromptLedger.Framed`), which is proved for the
  program's own format (`JsonFormatIsFramed`).
- A table has fewer than 10^19 rows (`PromptRecords.PagesInLimits`).

## Where the code does not meet its documentation

- `docs/architecture.md:336-337` says that an inconsistent checkpoint leaves a decided run recoverable.
  `app/agent/graph.py:389-390` calls every checkpoint with a next node and a terminal status inconsistent.
  A crash between `verify_result` and `summarize`, or right after a rejection was recorded, leaves exactly
  such a checkpoint, and no submission ever changes any store again
  (`InconsistentExactly`, `StuckForever`, `RejectionCanGetStuck`). From every other checkpoint a submission on
  the last revision ends in agreement, whatever providers, tools and clocks answer, exactly when the token
  counters of the checkpoint that it reaches pass the run table's check (`RecoveryConverges`,
  `ResendRecovers`). A resend of an earlier revision also fails while the checkpoint waits at a decided
  approval or at one without a row (`SupersededConverges`): it is refused at
  `app/services/agent_workflow.py:427-431` or 557-560.
- The run table demands `total_tokens = input_tokens + output_tokens`. A provider that reports a total
  without its parts makes the commit of the finished run fail, on every resend too: such a run is reached
  and stays RUNNING forever (`TokenCheckExactly`, `FinishedReconciles`, `UnbalancedRunGetsStuck`). For a
  submission that needs no further plan the outcome is known before the call: agreement exactly when the
  checkpoint lets it go on and the counters collected so far add up (`KnownBeforeTheCall`). With consistent
  responses the counters never stand in the way (`BalancedRecovery`, `WellReportedRunsRecover`).
- A run that ended FAILED, "failed safely" in its summary, may have written: both are reachable with the
  same UNKNOWN row (`FailedRunLeavesWriteOpen`). Which rows settle the question is in
  `ReportedOutcomeIsTrue`.
- Event ids count positions in a snapshot that is rebuilt for each request. A client that resumes on a newer
  snapshot ends complete exactly when whatever only one of the snapshots has comes after its cursor
  (`ResumeIsCompleteExactly`). That holds while the run row is untouched and only later rows are added
  (`NewsAreDelivered`), and never once the run row was updated after the client read an event of it
  (`UpdatedRunIsNeverComplete`); `ResumeCanSkipToolResult` shows a tool result that is never delivered.
- An upload within its limits can be refused by indexing for needing more than 200 chunks
  (`AcceptedDocumentCanBeRefused`), and a document of several pages cannot be indexed when a page contains a
  form feed (`PagesComeBackExactly`).
- The unused characters that a section is given back contain its own slack, so the sections can exceed their
  total of 18,100 (`app/agent/prompt_budget.py:430-434`): requests within all field limits exceed it by any
  amount n from 1 to 2,000 after a first pass of 9,724 + n (`SectionsCanExceedTotal`). For every source the total is kept exactly when the slack that is counted
  twice makes the evidence show nothing more: its section in the room it is given is the section in the room
  there is (`WithinTotalExactly`). If only evidence was cut on the first pass, that room is known from the
  first pass (`OnlyEvidenceIsCut`), and where all evidence fits the room it is given, the total is exceeded
  exactly when the complete evidence is longer than its first section and what was unused together
  (`CompleteEvidenceDecides`). It is always kept when no section of the first pass was cut short of its budget
  (`NoWasteStaysWithin`), and the overrun is at most the largest slack of the first pass
  (`OverrunIsBounded`). For requests within the field limits this is the only reason for a refusal, from an
  overrun of 516 at the earliest (`RefusedOnlyByOverrun`), and it does happen: those requests are refused
  exactly from n = 523 on, although each first pass is within all limits (`RedistributionCanRefuse`).

## Model

| member | source | states |
|---|---|---|
| `ApprovalInvariant.BeginKeepsInv` | app/services/agent_workflow.py:460-508 | committing a new decision, accepting a resend or refusing keeps the invariant over all stores |
| `ApprovalInvariant.DecisionKeepsProduct` | app/services/agent_workflow.py:477-501 | deciding the open revision keeps the contiguous history and its link to the checkpoint |
| `ApprovalInvariant.InspectKeepsInv` | app/services/agent_workflow.py:516-560 | choosing between resume, continuation and reconciliation keeps the invariant |
| `ApprovalInvariant.AdvanceKeepsInv` | app/agent/graph.py:393-426 | every node with its own checkpoint keeps the invariant, at the interrupt and at the end too |
| `ApprovalInvariant.ResumeKeepsLink` | app/agent/nodes/approval.py:358-408 | resuming applies exactly the stored decision to exactly the proposal it was made on |
| `ApprovalInvariant.ExecuteKeepsInv` | app/services/agent_tool_executions.py:172-239 | each commit inside the execution node keeps the invariant, so a crash may fall between any two |
| `ApprovalInvariant.PersistKeepsInv` | app/services/agent_workflow.py:402-432 | the progress commit keeps the invariant, for a finished run and for a new approval boundary |
| `ApprovalInvariant.ApplyKeepsInv` | app/services/agent_workflow.py:442-599 | every event, a crash included, keeps the invariant |
| `ApprovalInvariant.HistoryKeepsInv` | app/services/agent_workflow.py:442-599 | the invariant holds after every sequence of submissions, resends, steps and crashes |
| `ApprovalInvariant.ReachableInv` | app/services/agent_workflow.py:220-269 | every world reachable from the start of a run satisfies the invariant |
| `ApprovalTheorems.AtMostOnce` | app/services/agent_tool_executions.py:172-345 | in every reachable state each action identity has at most one committed domain write |
| `ApprovalTheorems.RowStatusIsTruthful` | app/models/agent_tool_execution.py:69-86 | written implies a row; completed means exactly one write, failed means none; every row has its shape |
| `ApprovalTheorems.NoWriteWithoutDecision` | app/services/agent_tool_executions.py:449-469 | every write belongs to an approval row committed as approved with the same revision and fingerprint |
| `ApprovalTheorems.WritesComeFromApprovedProposal` | app/agent/nodes/execution.py:83-97 | if fingerprints do not collide, every write is an action of the very proposal approved |
| `ApprovalTheorems.DecisionsWereSubmitted` | app/services/agent_workflow.py:477-501 | after every history each decided row has the decision, feedback and fingerprint of a submission on its revision |
| `ApprovalTheorems.WritesWereSubmitted` | app/services/agent_tool_executions.py:449-470 | every write belongs to a submission that approved that revision and fingerprint |
| `ApprovalTheorems.FeedbackReachesPlanner` | app/agent/nodes/approval.py:358-381 | while a changed plan is made, the state carries the text of the submitted change request |
| `ApprovalTheorems.ApprovalHistory` | app/services/agent_workflow.py:402-432 | revisions are 0..k, all below k ask for changes, the run waits exactly when the last one is pending |
| `ApprovalTheorems.DecisionsNeverChange` | app/services/agent_workflow.py:391-399 | no history removes an approval row or changes a committed decision |
| `ApprovalTheorems.TerminalRunIsFinal` | app/services/agent_workflow.py:562-569 | once the run is terminal, no submission, resend or crash changes any store |
| `ApprovalTheorems.FinishedOutcomeIsTrue` | app/agent/nodes/finalization.py:67-149 | a stored outcome agrees with the committed writes; what it leaves open is exactly what in-progress and unknown rows leave open, and belongs to approved actions |
| `ApprovalTheorems.ReportedOutcomeIsTrue` | app/services/agent_workflow.py:180-217 | the same for every outcome, FAILED included, of every reachable finished run |
| `ApprovalRecovery.TickMakesProgress` | app/services/agent_workflow.py:442-599 | an undisturbed submission ends: every atomic step decreases a measure |
| `ApprovalRecovery.DriveReachesAgreement` | app/agent/graph.py:393-426 | work once started under the lock ends with product rows and checkpoint in agreement iff the counters of what it reached pass |
| `ApprovalRecovery.RecoveryConverges` | app/services/agent_workflow.py:503-581 | every submission that is not refused at once, undisturbed and whatever is answered to it, ends in agreement iff the checkpoint that it finds passes inspection and the counters of the checkpoint that it reaches pass; for an earlier revision, iff the checkpoint also does not wait at an approval that is not the open one |
| `ApprovalRecovery.TakenExactly` | app/services/agent_workflow.py:470-508 | not refused at once: exactly the submissions on the last revision and the exact resends of earlier ones |
| `ApprovalRecovery.SupersededConverges` | app/services/agent_workflow.py:503-560 | a resend of an earlier revision finishes or reconciles what a crash left iff the counters pass, but resumes no newer decision and announces no newer boundary |
| `ApprovalRecovery.SupersededInspection` | app/services/agent_workflow.py:421-432 | the refusal of a boundary whose approval is decided already: which earlier resend reaches the commit and when it is refused |
| `ApprovalRecovery.ResendRecovers` | app/services/agent_workflow.py:503-581 | the same for every submission after every history of submissions, steps and crashes |
| `ApprovalRecovery.FinishedReconciles` | app/services/agent_workflow.py:520-526 | a finished checkpoint is reconciled exactly when its counters pass the table's check |
| `ApprovalCounters.KnownBeforeTheCall` | app/services/agent_workflow.py:503-581 | if no further plan is needed, agreement is decided before the call: iff the checkpoint lets the submission go on and the counters collected so far add up, or are not looked at |
| `ApprovalCounters.TickStaysClosing` | app/agent/graph.py:393-426 | work past planning stays past planning, and its counters keep adding up or not |
| `ApprovalCounters.BalancedRecovery` | app/models/agent_run.py:124-127 | if all counters add up, the checkpoint that a crash left decides recovery alone |
| `ApprovalCounters.WellReportedRunsRecover` | app/agent/nodes/planning.py:126-157 | from the provider's responses to recovery: the same after every history when every response reports consistent counters |
| `ApprovalRecovery.CommitAgrees` | app/services/agent_workflow.py:402-432 | a committed progress leaves rows and checkpoint in agreement, for an outcome and for a boundary |
| `ApprovalRecovery.InconsistentExactly` | app/agent/graph.py:350-391 | which reachable checkpoints are refused: before summarize, or a rejection not yet verified |
| `ApprovalRecovery.StuckForever` | app/agent/graph.py:389-390 | from a refused checkpoint no sequence of events changes any store |
| `ApprovalOutcomes.DecidedPlanEnds` | app/services/agent_workflow.py:503-581 | if nothing goes wrong, approving the shown plan ends with a succeeded run and all actions written once; rejecting it, or a change request past the last revision, with a rejected run and nothing written |
| `ApprovalOutcomes.ChangedPlanIsShown` | app/services/agent_workflow.py:503-581 | if nothing goes wrong, a change request ends with the next revision waiting in run, row and checkpoint |
| `ApprovalWitnesses.RejectionCanGetStuck` | app/agent/graph.py:389-390 | a reachable run with a committed rejection that stays RUNNING forever |
| `ApprovalWitnesses.RefusedForever` | app/models/agent_run.py:124-127 | a finished checkpoint with unbalanced counters: no sequence of events changes any store |
| `ApprovalWitnesses.UnbalancedRunGetsStuck` | app/models/agent_run.py:124-127 | whenever a plan's counters do not add up, a decided run is reachable that stays RUNNING forever |
| `ApprovalWitnesses.FailedRunLeavesWriteOpen` | app/services/agent_tool_executions.py:195-239 | a FAILED run is reachable with its action written, and one without, with the same UNKNOWN row |
| `ApprovalWitnesses.StartReachesApproval` | app/services/agent_workflow.py:220-269 | helpful answers lead a new run to its first pending approval |
| `ApprovalService.AgentWorkflowService.StartAgentRun` | app/services/agent_workflow.py:220-269 | starting leaves valid stores, exactly those of the step system up to the crash |
| `ApprovalService.AgentWorkflowService.SubmitAgentApproval` | app/services/agent_workflow.py:442-581 | refines the step system up to any crash, keeps the invariant and all decisions; refused iff it neither decides the open approval nor repeats a stored decision, and otherwise stored exactly as submitted; an answer means agreement; undisturbed, exactly which submissions are answered |
| `ApprovalService.AgentWorkflowService.CommitDecision` | app/services/agent_workflow.py:477-508 | the first transaction: an accepted submission's row has its decision, feedback and fingerprint, and no other row changes |
| `ApprovalService.AgentWorkflowService.Reconcile` | app/services/agent_workflow.py:510-581 | after the decision, the stores end where the step system ends |
| `ApprovalService.AgentWorkflowService.PersistProgress` | app/services/agent_workflow.py:402-432 | the second transaction writes run values and the row of a new boundary, or nothing |
| `ApprovalService.AgentWorkflowService.Advance` | app/agent/graph.py:393-426 | the node loop up to its next boundary or the crash refines the step system |
| `ApprovalService.AgentWorkflowService.AdvanceNode` | app/agent/graph.py:477-597 | one node and its checkpoint, including the interrupt and the resumed response |
| `ApprovalService.AgentWorkflowService.LeaveGraph` | app/agent/graph.py:350-391 | when and with which progress the graph is left |
| `ApprovalService.AgentWorkflowService.ExecuteNode` | app/agent/nodes/execution.py:107-179 | the action loop with its single final checkpoint refines the step system |
| `ApprovalService.AgentWorkflowService.ExecuteAction` | app/services/agent_tool_executions.py:172-239 | one action with up to four transactions, for a crash between any two of them |
| `ApprovalService.AgentWorkflowService.ClaimAction` | app/services/agent_tool_executions.py:284-345 | the claim transaction and the replay of a completed action refine one step |
| `ApprovalService.LateCrash` | app/services/agent_workflow.py:442-599 | a crash after the last step is no crash |
| `ApprovalService.DriveUntilKeepsInv` | app/services/agent_workflow.py:442-599 | dying at any step leaves stores that satisfy the invariant, and only agreement is reported as an answer |
| `ApprovalService.SubmissionFacts` | app/services/agent_workflow.py:442-599 | wherever a submission is cut off: invariant and preserved decisions |
| `ApprovalService.SubmissionIsRight` | app/services/agent_workflow.py:442-599 | what each reply says about the stores, for every submission and every crash |
| `ApprovalService.UndisturbedConverges` | app/services/agent_workflow.py:503-581 | undisturbed, every submission that is not refused at once: when it ends in agreement, when it is answered and when it finds the service unavailable, counters included |
| `ToolExecutions.ClaimKeepsLedger` | app/services/agent_tool_executions.py:265-345 | a claim keeps row shapes and at-most-once; only a new or safely failed action may be executed |
| `ToolExecutions.DispatchKeepsLedger` | app/services/agent_tool_executions.py:195-222 | the domain call of a claimed action makes its first and only write |
| `ToolExecutions.CompletionKeepsLedger` | app/services/agent_tool_executions.py:347-384 | completion marks only a written row, whatever happens to its commit |
| `ToolExecutions.FailureKeepsLedger` | app/services/agent_tool_executions.py:386-417 | a failure never marks a written action as safely failed nor touches a completed one |
| `ToolExecutions.ReplayRebuildsReceipt` | app/services/agent_tool_executions.py:419-447 | replaying a completed batch or deletion gives back exactly the original receipt |
| `ToolExecutions.AgentToolExecutionCoordinator.TakeClaim` | app/services/agent_tool_executions.py:265-345 | the claim transaction refines its specification and keeps the ledger |
| `ToolExecutions.AgentToolExecutionCoordinator.RecordCompletion` | app/services/agent_tool_executions.py:347-384 | the completion transaction refines its specification and keeps the ledger |
| `ToolExecutions.AgentToolExecutionCoordinator.RecordFailure` | app/services/agent_tool_executions.py:386-417 | the failure transaction refines its specification; the domain error is reported only if it commits |
| `ToolExecutions.AgentToolExecutionCoordinator.PerformClaimed` | app/services/agent_tool_executions.py:195-239 | a result iff the call returned a fitting one and its completion was acknowledged; a write iff the call wrote; what the row says for each end; when the call's own error is reported |
| `ToolExecutions.AgentToolExecutionCoordinator.ExecuteAction` | app/services/agent_tool_executions.py:172-239 | a result iff it was produced now or is the receipt of an earlier completion; when the domain is written; the row afterwards, lost acknowledgements included; no approval, no write |
| `ToolExecutions.ClaimExactly` | app/services/agent_tool_executions.py:265-345 | which claims lead to the domain call, which to the stored receipt, and what they leave in the row |
| `ToolExecutions.ReceiptExactly` | app/services/agent_tool_executions.py:419-447 | what is returned for a completed row: from the row alone for batches and deletions, else the task as it is now |
| `ReceiptText.ParseDecimal` | app/services/agent_tool_executions.py:427-440 | parsing undoes decimal printing for every number |
| `ReceiptText.BatchSummaryRoundTrip` | app/services/agent_domain.py:186-203 | parsing "Created n tasks" gives n for every n |
| `AgentNodes.SucceededExactly` | app/agent/nodes/finalization.py:67-149 | for every state: success iff the approved current proposal has a success record per action in order |
| `AgentNodes.PartialFailureExactly` | app/agent/nodes/finalization.py:94-133 | for every state: partial failure iff a nonempty success prefix is followed by exactly one failure |
| `AgentNodes.RejectedExactly` | app/agent/nodes/finalization.py:79-93 | for every state: rejected iff the current proposal was rejected and nothing was executed |
| `AgentNodes.SummaryIsTrue` | app/agent/nodes/finalization.py:156-205 | the counts in a summary are the actions, successes and records that there really are |
| `AgentNodes.VerificationTells` | app/agent/nodes/finalization.py:67-149 | when verification reports which status and error, and how many records it looked at |
| `AgentNodes.OutputTells` | app/agent/nodes/finalization.py:179-205 | the output's status, counters and records are the state's; the plan is shown iff nothing failed and the records can be trusted |
| `AgentNodes.NoFailureIndex` | app/agent/nodes/finalization.py:109-118 | the failure list is empty iff all records succeeded |
| `AgentNodes.OneFailureIndex` | app/agent/nodes/finalization.py:109-118 | the failure list is one index iff exactly that record failed |
| `AgentNodes.ExecutionRecordsShape` | app/agent/nodes/execution.py:135-179 | execution leaves a success for each action, or a prefix ending in its only failure |
| `AgentNodes.ExecuteActions` | app/agent/nodes/execution.py:135-179 | the loop with its break computes those records |
| `AgentGraph.RunGraph` | app/agent/graph.py:575-657 | a run makes at most as many steps as its rank and always stops |
| `AgentGraph.StepPreservesInv` | app/agent/graph.py:477-597 | every node and route keeps the graph invariant for every answer from outside |
| `AgentGraph.SummarizeNeverRejects` | app/agent/nodes/finalization.py:179-205 | summarize accepts every state that the graph builds |
| `AgentGraph.RunKeepsInv` | app/agent/graph.py:575-657 | every run ends after summarize, never in an exception |
| `AgentGraph.GraphTerminates` | app/agent/graph.py:50-50 | at most 14 nodes execute, so the recursion limit of 16 is never reached |
| `AgentGraph.FourteenNodesAreReached` | app/agent/nodes/approval.py:358-381 | the bound is tight: two change requests and an approval execute 14 nodes |
| `AgentGraph.RunIsWitnessed` | app/agent/routing.py:20-29 | approvals and records in the state come from answers given during the run |
| `AgentGraph.TruthfulOutcome` | app/agent/nodes/finalization.py:67-205 | in every run each terminal status is reported iff the approval and the tool outcomes justify it |
| `AgentVisits.VisitsAreTrail` | app/agent/graph.py:575-657 | every run has a trail of stops |
| `AgentVisits.TrailIsVisits` | app/agent/graph.py:575-657 | and exactly one |
| `AgentVisits.RunFollowsTrail` | app/agent/graph.py:575-657 | the run makes the stops of its trail in turn and ends with the last |
| `AgentVisits.ShownPlanWasAccepted` | app/agent/nodes/planning.py:198-232 | the approval node is reached only with the plan that was generated and accepted just before |
| `AgentVisits.RefusedPlanFails` | app/agent/nodes/planning.py:216-232 | a plan that is not accepted ends its run failed, after two more nodes, undecided and with nothing done |
| `AgentVisits.RecordsComeFromApprovedPlan` | app/agent/nodes/execution.py:107-179 | records come only from a plan that was generated, accepted, shown and approved by consecutive answers, and from the tools' answers to it |
| `AgentVisits.SucceedsExactly` | app/agent/nodes/finalization.py:67-149 | a run succeeds iff some plan was generated, accepted, shown and approved in turn and all its actions succeeded |
| `AgentVisits.FailsPartlyExactly` | app/agent/nodes/finalization.py:94-133 | it fails in part iff such a plan's actions succeeded up to one after the first |
| `AgentVisits.IsRejectedExactly` | app/agent/nodes/approval.py:358-381 | it is rejected iff a shown plan was turned down, or sent back a third time |
| `AgentVisits.FailureIsNamed` | app/agent/graph.py:477-597 | a node that raises ends the run failed under that node's error, with nothing recorded |
| `AgentVisits.ErrorTells` | app/agent/graph.py:575-597 | a run ends with an error only if the node before verification raised it |
| `AgentVisits.CountersAreSums` | app/agent/graph.py:136-171 | the persisted rounds, attempts, latency and tokens are the sums over all generated plans, and the tool calls those of the records |
| `PlanGeneration.GeneratePlanProposal` | app/agent/nodes/planning.py:89-185 | when a plan is generated, the number of calls, and metrics over every reported usage |
| `PlanGeneration.GeneratedPlanIsBalanced` | app/agent/nodes/planning.py:126-157 | consistent responses, usable or not, give consistent plan counters |
| `RunMetrics.AggregateConcat` | app/agent/metrics.py:34-46 | merging two aggregates is aggregating all their usages |
| `RunMetrics.MergeIsOneAggregate` | app/agent/graph.py:136-171 | metrics merged over any number of revisions carry the aggregate of every usage |
| `RunMetrics.TokenCheckExactly` | app/models/agent_run.py:124-127 | the table accepts the row iff reported totals add up to reported inputs and outputs |
| `RunMetrics.WellReportedRunPersists` | app/services/agent_workflow.py:199-217 | with consistent responses the finished run always passes the table's check |
| `RunMetrics.LoneTotalIsRefused` | app/models/agent_run.py:124-127 | among consistent responses one with only a total is refused by the table, exactly unless that total is zero |
| `RefreshTokens.ActKeeps` | app/services/refresh_tokens.py:155-223 | login, rotation, logout and password change keep checks, descent and families under any clock |
| `RefreshTokens.CommitKeeps` | app/repositories/refresh_tokens.py:19-112 | every committed or aborted transaction keeps the whole store in order |
| `RefreshTokens.Serializable` | app/repositories/refresh_tokens.py:40-66 | every interleaving under the row lock equals the finished transactions in order |
| `RefreshTokens.SerialKeeps` | app/services/authentication.py:43-57 | every sequence of transactions keeps the store in order |
| `RefreshTokens.PasswordChangeIsCleanCut` | app/services/password_change.py:31-42 | under every interleaving an active credential descends from a login that verified the current hash |
| `RefreshTokens.RootOf` | app/services/refresh_tokens.py:182-223 | predecessors lead to the login of the family, with its password hash and epoch |
| `RefreshTokens.NoneSurvivesChange` | app/repositories/refresh_tokens.py:88-95 | after a committed change the user has no active credential |
| `RefreshTokens.ActiveCount` | app/repositories/refresh_tokens.py:68-112 | login adds one, rotation keeps, logout removes at most one, change removes all, aborts change nothing |
| `RefreshTokens.FamiliesStayLinear` | app/models/refresh_token.py:36-43 | under every interleaving: one successor each, one active member per family, row checks hold |
| `RefreshTokens.ExchangedInTime` | app/services/refresh_tokens.py:204-223 | under every interleaving a credential lives seven days and was issued by a login or in exchange for one that was still valid and was retired at that moment |
| `RefreshTokens.AuthenticationService.AuthenticateUser` | app/services/authentication.py:43-57 | succeeds iff the password verifies, the hash is unused and the commit succeeds; then one new family, valid for seven days, and nothing else changes |
| `RefreshTokens.AuthenticationService.RefreshAuthentication` | app/services/refresh_tokens.py:182-223 | succeeds iff the credential is present, unrevoked and within its lifetime, the hash is unused and the commit succeeds; then it is retired and one of its family takes its place for seven days |
| `RefreshTokens.AuthenticationService.LogoutRefreshToken` | app/services/refresh_tokens.py:87-119 | retires exactly the presented credential if it is active, and changes nothing otherwise |
| `RefreshTokens.AuthenticationService.ChangeUserPassword` | app/services/password_change.py:22-42 | succeeds iff the password verifies and the commit succeeds; then the hash is replaced and every active credential retired |
| `PromptText.UnicodeSafePrefix` | app/agent/prompt_budget.py:104-122 | the backward scan returns the prefix of the safe length |
| `PromptText.SafeLengthIsGreatest` | app/agent/prompt_budget.py:90-122 | the safe length is the greatest boundary at or below the limit |
| `PromptText.SafeLengthMonotone` | app/agent/prompt_budget.py:104-122 | a larger limit never gives a shorter prefix |
| `PromptText.FitText` | app/agent/prompt_budget.py:125-145 | the search loop returns the fitted text, and says whether it was cut |
| `PromptText.SearchIsLinear` | app/agent/prompt_budget.py:125-145 | binary search finds what the linear scan from the longest limit finds |
| `PromptText.FittedIsBest` | app/agent/prompt_budget.py:125-145 | the whole text if it fits, else its longest fitting marked prefix; none iff neither it nor the marker fits |
| `PromptText.FittedIsHonest` | app/agent/prompt_budget.py:125-145 | for any renderer a result fits, and is the whole text or one of its marked safe prefixes |
| `PromptText.EncodeTwice` | app/agent/grounding.py:147-150 | escaping evidence before serializing it is one escape per character |
| `PromptLists.SerializerGrows` | app/agent/prompt_budget.py:86-87 | serialized lists never get shorter when more is shown |
| `PromptGoal.BuildGoalAnalysis` | app/agent/prompt_budget.py:148-201 | the section loop returns the specified goal section |
| `PromptGoal.KeepConstraints` | app/agent/prompt_budget.py:164-192 | the loop over the constraints, cut iff not all are kept whole |
| `PromptGoal.KeptIsBest` | app/agent/prompt_budget.py:164-192 | the longest fitting prefix of constraints, then the next one as far as it fits |
| `PromptGoal.GoalIsHonest` | app/agent/prompt_budget.py:148-201 | refused iff neither objective nor marker fits; truncated iff the complete goal does not fit |
| `PromptGoal.BuildFeedback` | app/agent/prompt_budget.py:204-217 | returns the specified feedback section |
| `PromptGoal.FeedbackIsHonest` | app/agent/prompt_budget.py:204-217 | refused iff neither feedback nor marker fits; else shown as far as it fits |
| `PromptLists.RetainIdentities` | app/agent/prompt_budget.py:247-257 | the loop keeps the greedy prefix of identities |
| `PromptLists.GreedyExactly` | app/agent/prompt_budget.py:247-257 | an item is kept iff the identities up to it fit |
| `PromptLists.BuildProjection` | app/agent/prompt_budget.py:234-303 | both loops return the specified section, with their counts |
| `PromptLists.ProjectionIsHonest` | app/agent/prompt_budget.py:234-303 | the longest prefix whose identities fit, each item showing the best it could, exact counts of what is missing |
| `PromptLists.ShowFromIsBest` | app/agent/prompt_budget.py:259-290 | every item shows its text whole if it fits when its turn comes, else its longest cut, else nothing iff no marker fits |
| `PromptLists.TruncatedExactly` | app/agent/prompt_budget.py:293-303 | truncated iff the complete source does not fit; otherwise the section is the complete source |
| `PromptLists.ProjectionBounds` | app/agent/prompt_budget.py:234-303 | within budget whenever the empty list is, never shorter than the empty list |
| `PromptLists.ShowText` | app/agent/prompt_budget.py:259-290 | one turn shows the specified text, reported as cut iff not whole |
| `PromptLists.BuildGrounding` | app/agent/prompt_budget.py:322-390 | refused exactly for budgets outside 1..12,000, else the specified section |
| `PromptBudget.Redistribute` | app/agent/prompt_budget.py:428-464 | the rebuilds with their running ledger compute the second pass, whose budgets are 18,100 minus current lengths |
| `PromptLedger.BuildersAreSound` | app/agent/prompt_budget.py:148-390 | every section stays within its budget or is empty, and does not change once it is complete |
| `PromptLedger.SecondPassSucceeds` | app/agent/prompt_budget.py:428-464 | no rebuild is refused once the first pass succeeded |
| `PromptLedger.WithinTotalExactly` | app/agent/prompt_budget.py:428-464 | for every source: within 18,100 iff the evidence shows no more in the room it is given than in the room that first section and ledger leave |
| `PromptLists.SameSection` | app/agent/prompt_budget.py:234-303 | a section is the section of every smaller budget that it does not exceed |
| `PromptText.FittedShrinks` | app/agent/prompt_budget.py:125-145 | what is fitted into a budget is fitted into every smaller one that it does not exceed |
| `PromptLedger.OnlyEvidenceIsCut` | app/agent/prompt_budget.py:428-464 | if only evidence was cut: the other sections stay, and 18,100 is exceeded iff evidence differs between two budgets known from the first pass |
| `PromptLedger.CompleteEvidenceDecides` | app/agent/prompt_budget.py:428-464 | on the source: exceeded iff the complete evidence is longer than its first section and what was unused together |
| `PromptLedger.NoWasteStaysWithin` | app/agent/prompt_budget.py:428-464 | within 18,100 whenever each first section is complete or full |
| `PromptLedger.NothingCutNothingChanges` | app/agent/prompt_budget.py:428-464 | if nothing was cut the second pass is the first |
| `PromptLedger.OverrunIsBounded` | app/agent/prompt_budget.py:428-464 | the overrun is at most the largest slack of the first pass |
| `PromptOverrun.SectionsCanExceedTotal` | app/agent/prompt_budget.py:430-434 | requests within the field limits whose sections exceed 18,100 by n, for every n from 1 to 2,000 |
| `PromptOverrun.RedistributionCanRefuse` | app/agent/prompt_budget.py:488-503 | their first pass is within all limits, and their prompt is returned iff n is at most 522 |
| `PromptRecords.RefusedOnlyByOverrun` | app/agent/prompt_budget.py:466-504 | for every request within the field limits: the sections are built, and the prompt is refused iff they exceed 18,100 by more than the real manifest leaves of the framing budget, at least 515 |
| `PromptRecords.NoWasteIsAccepted` | app/agent/prompt_budget.py:428-504 | such a request is never refused when each first section is complete or full |
| `PromptRecords.JsonFormatIsFramed` | app/agent/prompt_budget.py:234-321 | the program's own empty lists fit into their budgets |
| `PromptRecords.ManifestIsShort` | app/agent/prompt_budget.py:466-473 | the manifest of a request within the field limits has at most 349 characters |
| `PromptOverrun.RequestInLimits` | app/agent/grounding.py:32-55 | the requests that exceed the total are within the limits of every field |
| `PromptBudget.BuildPlanInput` | app/agent/prompt_budget.py:393-504 | an input is returned iff no builder refuses and the assembled text is within both limits; a reader of its keys finds each final section in its own place |
| `PromptBudget.InputIsReadBack` | app/agent/prompt_budget.py:474-491 | read by its fixed keys, the assembled text has every section under its own key and the evidence behind its heading |
| `PromptReading.BuildBudgetedAgentPlanInput` | app/agent/prompt_budget.py:393-504 | on the program's own records: refused iff by overrun, and a reader that knows nothing of the request finds every section, goal text, constraint and item of the prompt |
| `PromptReading.PromptReadsBack` | app/agent/prompt_budget.py:474-491 | whatever texts the sections contain, the five parts are read back under their names |
| `PromptReading.ItemReadsBack` | app/agent/prompt_budget.py:220-303 | every listed item is one object with its own fields and what is shown of its long text |
| `PromptReading.GoalReadsBack` | app/agent/prompt_budget.py:148-201 | objective and constraints come back from the goal section as they are shown |
| `PromptReading.ProjectFields` | app/agent/prompt_budget.py:36-44 | the members of a project are its fields, in order |
| `PromptReading.TaskFields` | app/agent/prompt_budget.py:45-57 | the members of a task are its fields, in order |
| `PromptEvidence.BoundaryHolds` | app/agent/grounding.py:147-150 | the text between the delimiters has no angle bracket, whatever was retrieved |
| `PromptEvidence.RequestEvidenceIsTold` | app/agent/prompt_budget.py:322-390 | the evidence of every prompt is read back citation by citation from between its delimiters |
| `PromptEvidence.CitationFields` | app/agent/grounding.py:32-46 | the members of a citation are its fields, the source with its brackets escaped |
| `JsonText.ReadsMembers` | app/agent/prompt_budget.py:86-87 | an object is read back as it was written, whatever follows it |
| `JsonText.ReadsArray` | app/agent/prompt_budget.py:86-87 | an array is read back as it was written, whatever follows it |
| `JsonText.DecodeUndoesEncode` | app/agent/prompt_budget.py:86-87 | every text comes back from the inside of its string |
| `JsonText.JsonCodeStaysInside` | app/agent/prompt_budget.py:86-87 | no text ends the string that it is put into |
| `PromptLedger.RefusedExactly` | app/agent/prompt_budget.py:393-464 | the builders refuse iff feedback or objective does not fit even as a bare marker |
| `PromptLedger.FinalSectionsTellAll` | app/agent/prompt_budget.py:393-504 | every section of the prompt, feedback included, shows as much as its budget of the second pass allows, named section by section, and tells exactly what it leaves out |
| `AgentLoop.RoundCounts` | app/agent/loop.py:159-170 | a round that goes on uses up one of the four rounds |
| `AgentLoop.DispatchKeeps` | app/agent/loop.py:217-253 | a batch records all of its calls, or stops at one dispatched but unrecorded call |
| `AgentLoop.AcceptKeeps` | app/agent/loop.py:172-253 | a response keeps distinct ids, whole-batch validation, limits and records |
| `AgentLoop.RunKeeps` | app/agent/loop.py:276-301 | every run ends with its log in order |
| `AgentLoop.LoopIsBounded` | app/agent/loop.py:39-44 | at most 4 rounds and 8 dispatches, each id once, only from validated batches, records match |
| `AgentLoop.DriversAgree` | app/agent/events.py:109-221 | given the same answers, the streaming driver reaches the same machine and result or failure |
| `AgentLoop.StreamEndsOnce` | app/agent/events.py:201-221 | exactly one terminal event, last, and it tells the verdict |
| `AgentLoop.StreamIsWellFormed` | app/agent/events.py:121-146 | events are numbered 1, 2, ... with one terminal event at the end |
| `AgentLoop.AgentLoopMachine.TakeRound` | app/agent/loop.py:159-170 | the round counter method refines its specification |
| `AgentLoop.AgentLoopMachine.AcceptResponse` | app/agent/loop.py:172-253 | validating, answering or dispatching refines its specification, with the observed tool events |
| `AgentLoop.AgentLoopMachine.DispatchBatch` | app/agent/loop.py:218-253 | the dispatch loop refines its specification up to the first failing call |
| `AgentLoop.AgentLoopMachine.StreamOnce` | app/agent/events.py:157-211 | one streamed round refines its specification, events included |
| `AgentLoop.RunAgent` | app/agent/loop.py:276-301 | the plain driver computes the specified run |
| `AgentLoop.StreamAgent` | app/agent/events.py:109-221 | the streaming driver yields the specified events, numbered consecutively |
| `AgentRounds.DispatchExactly` | app/agent/loop.py:217-253 | a batch is carried out iff every call is answered within its limit and all results fit; then calls and results are appended in order |
| `AgentRounds.RoundExactly` | app/agent/loop.py:276-301 | when a round continues and where, when it returns a plan and which, when the configuration is at fault |
| `AgentRounds.PlanExactly` | app/agent/loop.py:276-301 | the loop returns a plan iff good rounds of tool calls are followed, within four, by a text that is that plan |
| `AgentRounds.MisconfiguredExactly` | app/agent/loop.py:276-301 | a configuration error iff the provider says so in a round that is reached |
| `AgentRounds.PlannedMachine` | app/agent/loop.py:172-253 | a plan's prompt showed what the tools answered to all calls of the rounds before, in order |
| `AgentRounds.ToolEventsTell` | app/agent/events.py:177-200 | every call is announced when it starts and when it has ended, in order |
| `AgentRounds.StreamedExactly` | app/agent/events.py:157-176 | a stream stands for a response iff it completes with it and its deltas, if any, are its text |
| `AgentRounds.StreamTellsRounds` | app/agent/events.py:109-221 | the stream of a run that returns a plan tells exactly its rounds and calls, and then the plan |
| `DocumentChunks.SplitUndoesJoin` | app/services/knowledge_documents.py:106-120 | splitting undoes joining for pages without form feeds |
| `DocumentChunks.JoinUndoesSplit` | app/services/knowledge_document_indexing.py:86-92 | joining undoes splitting for every text |
| `DocumentChunks.PagesComeBackExactly` | app/services/knowledge_document_indexing.py:86-92 | pages come back iff there is one page or no page contains a form feed |
| `DocumentChunks.ChunksExactly` | app/services/knowledge_document_indexing.py:95-130 | every chunk by its position in the page, and the closed form of their number |
| `DocumentChunks.ChunksRebuildPage` | app/services/knowledge_document_indexing.py:95-130 | dropping the 200 repeated characters of later chunks rebuilds the page exactly; sizes are 1..2000 |
| `DocumentChunks.NeighboursOverlap` | app/services/knowledge_document_indexing.py:35-38 | each chunk begins with the last 200 characters of the full chunk before it |
| `DocumentChunks.DocumentPrefixFacts` | app/services/knowledge_document_indexing.py:95-130 | every chunk by its number: its page, its place on that page and its text; the total is the sum over the pages |
| `DocumentChunks.DocumentRebuilds` | app/services/knowledge_document_indexing.py:106-127 | the chunks that carry a page's number, in order, rebuild that page |
| `DocumentChunks.ChunkDocumentText` | app/services/knowledge_document_indexing.py:95-130 | refused iff the pages do not come back or the total is 0 or above 200; else all chunks in order |
| `DocumentChunks.ChunkPages` | app/services/knowledge_document_indexing.py:102-130 | the loop over the pages returns all chunks, or nothing iff their number is 0 or above 200 |
| `DocumentChunks.ChunkPage` | app/services/knowledge_document_indexing.py:106-127 | the inner loop appends all chunks of a page, or stops when there are too many |
| `DocumentChunks.OnePageIsNeverRefused` | app/services/knowledge_documents.py:25-30 | one nonempty page of at most 200,000 characters is always accepted |
| `DocumentChunks.AcceptedDocumentCanBeRefused` | app/services/knowledge_documents.py:25-30 | documents within the upload limits that need 210 chunks |
| `Sorting.SortIgnoresOrder` | app/agent/retrieval.py:63-64 | sorting by a strict total order gives one result for every arrangement of the input |
| `RankFusion.RankingIgnoresIterationOrder` | app/agent/retrieval.py:27-64 | the ranking does not depend on set iteration order |
| `RankFusion.RankingIsStrict` | app/agent/retrieval.py:27-64 | every candidate occurs once, strictly ordered by score and identifier |
| `RankFusion.ScoreIsClose` | app/agent/retrieval.py:49-53 | four roundings leave a score within four millionths of its exact value |
| `RankFusion.DominanceWins` | app/agent/retrieval.py:45-61 | with rounded scores: no worse in both lists and better in one ranks first |
| `RankFusion.ExactDominance` | app/agent/retrieval.py:49-53 | with exact scores the same for lists of any length |
| `RankFusion.BothBeatOne` | app/agent/retrieval.py:8-10 | with rounded scores under the cap of 40: found by both precedes found by one |
| `RankFusion.SmallerLimitIsPrefix` | app/agent/retrieval.py:27-64 | a smaller limit gives a prefix of a larger one |
| `RankFusion.RankInExactly` | app/agent/retrieval.py:39-44 | ranks are the positions from one |
| `RankFusion.RankingTells` | app/agent/retrieval.py:45-61 | every candidate has an item, with its own places in both lists and the score of just these |
| `RankFusion.ReciprocalRankFuse` | app/agent/retrieval.py:27-71 | refused iff the limit or a list is invalid; else the limit-prefix of the ranking, each item with its own places in the two lists |
| `AgentEvents.BuildPublicAgentEvents` | app/services/agent_events.py:121-193 | the appending loops, the sort and the numbering compute the stream |
| `AgentEvents.DraftsAreOrdered` | app/services/agent_events.py:189-189 | the sort key orders all drafts of a run strictly |
| `AgentEvents.StreamIgnoresInputOrder` | app/services/agent_events.py:121-193 | the stream does not depend on the order of approvals and executions |
| `AgentEvents.StreamIsNumbered` | app/services/agent_events.py:65-77 | a permutation of the drafts in order of time, numbered 1..n with distinct ids |
| `EventSnapshots.OneTerminalEventExactly` | app/services/agent_events.py:165-188 | exactly one terminal event iff the run is terminal, else none |
| `EventSnapshots.DraftsOnce` | app/services/agent_events.py:121-188 | no draft occurs twice in a snapshot |
| `EventSnapshots.StreamTellsRows` | app/services/agent_events.py:80-193 | every event says what a stored row says, at its time, and every pending approval, start, end and the run's state have their event |
| `AgentEvents.EventIdTells` | app/services/agent_events.py:65-77 | an event id is the run's and its position in at least eight digits |
| `AgentEvents.EventIdsDiffer` | app/services/agent_events.py:65-77 | equal padded ids mean equal positions, for positions of any size |
| `AgentEvents.ResumeAfterEvent` | app/services/agent_events.py:238-255 | the search loop computes the resumption |
| `AgentEvents.ResumeReturnsRest` | app/services/agent_events.py:238-255 | resuming after the k-th id returns exactly the rest |
| `AgentEvents.CursorAcceptedExactly` | app/services/agent_events.py:238-255 | a cursor is accepted iff it is the id of one of the events |
| `AgentEvents.SessionsLoseNothing` | app/services/agent_events.py:238-255 | any number of cut and resumed connections deliver a contiguous part, nothing lost or repeated |
| `EventSnapshots.ResumedLaterTakesPlaceK` | app/services/agent_events.py:238-255 | on a newer stream the cursor means its position there, refused iff that position does not exist |
| `EventSnapshots.ResumeIsCompleteExactly` | app/services/agent_events.py:238-255 | on two snapshots: the client ends complete iff every draft that only one of them has comes after the last it read |
| `EventSnapshots.NewsAreDelivered` | app/services/agent_events.py:238-255 | complete whenever the run row is untouched and only later rows and completions were added |
| `EventSnapshots.UpdatedRunIsNeverComplete` | app/services/agent_events.py:238-255 | never complete once the run row was updated after an event of it was read |
| `EventSnapshots.ResumeCanSkipToolResult` | app/services/agent_events.py:238-255 | two snapshots of one run between which a tool result is never delivered |

## Left out

- HTTP endpoints, settings, migrations, OpenAI adapters and PDF parsing: input and output without a law of their own.
- LangGraph and PostgreSQL themselves: only the guarantees under "Assumptions" are used.
- The duplicate-claim race of two coordinators without the run lock: the lock of a submission excludes it.
- SHA-256, Argon2, JWT and UUID generation: unknown functions and opaque identifiers.
- Pydantic field validation, Project and Task CRUD, email normalization: settled by reading one branch; the limits of the fields that enter a prompt are `PromptRecords.WithinFieldLimits`.
- PromptRecords.WithinFieldLimits: identifiers, dates, timestamps and scores enter by the length and the characters of their text.
- The approval preview endpoint and the rebuilding of a proposal from its preview: the fingerprint stands for the proposal.
- `load_context` and `analyze_goal`: their results are opaque texts that the model passes on.
- Evaluation, baselines and tracing: reporting code.
- Losing the connection of a stream (`GeneratorExit`): no event follows it.
- Usages and latency in the tool loop's metrics: the aggregation is proved in `RunMetrics`.
- ReceiptText.ParseDecimal: the parser reads ASCII digits with an optional sign; underscores and other digits that Python's `int` accepts are not modelled.
- PromptText.SafeLengthIsGreatest: boundaries are those of the code's own test, not full grapheme segmentation.
- AgentNodes: summaries are constructors with their numbers, not English sentences.
- PlanGeneration.GeneratePlanProposal: the pause between two attempts has no effect in the model.
