/** The values exchanged by the workflow's nodes and kept in its checkpoint. */
module AgentState {
  import opened Options
  import opened RunMetrics

  const MAX_PLAN_ACTIONS: nat := 3
  const MAX_PLAN_REVISIONS: nat := 2

  datatype Tool = CreateTask | UpdateTask | BatchCreateTasks | DeleteTask

  /** Capabilities that need a persisted approval of their own. */
  predicate HighImpact(tool: Tool) {
    tool == BatchCreateTasks || tool == DeleteTask
  }

  datatype Action = Action(key: string, tool: Tool, arguments: string)

  datatype RawProposal = RawProposal(plan: string, actions: seq<Action>)

  predicate UniqueKeys(actions: seq<Action>) {
    forall i, j :: 0 <= i < j < |actions| ==> actions[i].key != actions[j].key
  }

  /** What the proposal contract admits: at most three actions with distinct keys. */
  type Proposal = p: RawProposal | |p.actions| <= MAX_PLAN_ACTIONS && UniqueKeys(p.actions)
    witness RawProposal("", [])

  /** A proposal digest, read as a number. */
  datatype Fingerprint = Sha256(digest: nat)

  /** The digest is a function of the proposal and nothing more is known about it. */
  type Fingerprinter = Proposal -> Fingerprint

  datatype Decision = Approved | Rejected | RequestChanges

  datatype Response = Response(decision: Decision, feedback: Option<string>)

  /** A valid plan carries its fingerprint, an invalid one does not. */
  datatype Validation =
    | Valid(revision: nat, fingerprint: Fingerprint)
    | Invalid(revision: nat)

  datatype ToolResult =
    | PublicTask(taskId: string, title: string)
    | Mutation(operation: Tool, referenceTaskId: string, affectedCount: int, summary: string)

  /** The public result contract of each write capability. */
  predicate ResultFits(tool: Tool, r: ToolResult) {
    match r
    case PublicTask(_, _) => !HighImpact(tool)
    case Mutation(operation, _, count, _) => HighImpact(tool) && operation == tool && 1 <= count <= 10
  }

  datatype Outcome = Succeeded(result: ToolResult) | Failed(error: DomainError)

  /** The first five are raised only by calls that wrote nothing. */
  datatype DomainError =
    | TaskNotFound | ProjectNotFound | TaskDateOrder | TaskTransition | ArchivedProject
    | OtherError

  predicate ProvenNoWrite(e: DomainError) {
    e != OtherError
  }

  datatype Record = Record(key: string, tool: Tool, outcome: Outcome)

  datatype VerificationStatus = Verified | VerificationFailed | VerifiedRejection | NoAction

  datatype VerificationError = ResultInvalid | ExecutionFailed | WorkflowFailed

  datatype Verification = Verification(
    status: VerificationStatus,
    checkedActions: nat,
    error: Option<VerificationError>)

  datatype TerminalStatus = RunSucceeded | RunRejected | RunPartialFailure | RunFailed

  datatype WorkflowError =
    AnalysisFailed | ContextFailed | PlanningFailed | ApprovalFailed | ExecutionNodeFailed

  datatype Summary =
    | NoChangesRequired
    | ActionsCompleted(count: nat)
    | PlanRejected
    | PartiallyCompleted(succeeded: int, total: nat)
    | FailedSafely
    | VerificationInvalid
    | RevisionLimitReached

  datatype GraphState = GraphState(
    analysis: Option<string>,
    context: Option<string>,
    proposal: Option<Proposal>,
    validation: Option<Validation>,
    decision: Option<Decision>,
    feedback: Option<string>,
    approvalRevision: Option<nat>,
    approvalFingerprint: Option<Fingerprint>,
    revisionCount: nat,
    records: seq<Record>,
    verification: Option<Verification>,
    terminal: Option<TerminalStatus>,
    error: Option<WorkflowError>,
    summary: Option<Summary>,
    metrics: Option<Metrics>)

  const INITIAL_STATE := GraphState(
    None, None, None, None, None, None, None, None, 0, [], None, None, None, None, None)

  datatype Output = Output(
    status: TerminalStatus,
    plan: Option<string>,
    summary: Summary,
    records: seq<Record>,
    metrics: Option<Metrics>)
}
