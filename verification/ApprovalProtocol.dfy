/** The durable approval protocol of one run as a step system.
    Four stores commit separately: the product rows (run and approvals), the graph checkpoint,
    the execution rows, and the domain writes. A submission holds the run's lock from its first
    read to its last commit, so one control state describes all work in flight; a crash loses
    that control state and nothing else. */
module ApprovalProtocol {
  import opened Options
  import opened RunMetrics
  import opened AgentState
  import opened AgentNodes
  import opened AgentGraph
  import opened ToolExecutions

  datatype RunStatus = Pending | Running | PendingApproval | Ended(how: TerminalStatus)

  datatype RunRow = RunRow(
    status: RunStatus,
    node: Option<Node>,
    summary: Option<Summary>,
    counters: Counters)

  const NEW_RUN := RunRow(Pending, None, None, ZERO_COUNTERS)

  /** An approval row is pending while it has no decision. */
  datatype Approval = Approval(fingerprint: Fingerprint, decision: Option<Decision>, feedback: Option<string>)

  datatype Submission = Submission(
    revision: nat,
    fingerprint: Fingerprint,
    decision: Decision,
    feedback: Option<string>)

  datatype Interrupt = Interrupt(revision: nat, fingerprint: Fingerprint)

  datatype Checkpoint = Checkpoint(state: GraphState, next: Node, interrupt: Option<Interrupt>)

  const INITIAL_CHECKPOINT := Checkpoint(INITIAL_STATE, Analyze, None)

  datatype Inspection =
    | Interrupted(interrupt: Interrupt)
    | Continuable
    | TerminalAt(output: Output)
    | Inconsistent

  /** Classify a checkpoint from its public snapshot. */
  function Inspect(fp: Fingerprinter, c: Checkpoint): Inspection {
    if c.interrupt.Some? then
      if c.next == Request then Interrupted(c.interrupt.value) else Inconsistent
    else if c.next == End then
      if c.state.terminal.None? then Inconsistent
      else
        var output := Summarize(fp, c.state);
        if output.None? then Inconsistent else TerminalAt(output.value)
    else if c.state.terminal.Some? then Inconsistent
    else Continuable
  }

  datatype Progress = AtApproval(interrupt: Interrupt) | Finished(output: Output)

  /** The run row after writing the values of one progress. */
  function WriteProgress(run: RunRow, p: Progress): RunRow {
    match p
    case AtApproval(_) => run.(status := PendingApproval, node := Some(Request))
    case Finished(o) =>
      run.(status := Ended(o.status), node := Some(Finish), summary := Some(o.summary),
           counters := if o.metrics.Some? then PersistedCounters(o.metrics.value) else run.counters)
  }

  predicate AlreadyMatches(run: RunRow, o: Output) {
    && run.status == Ended(o.status)
    && run.node == Some(Finish)
    && run.summary == Some(o.summary)
    && (o.metrics.Some? ==> run.counters == PersistedCounters(o.metrics.value))
  }

  function StoredResponse(a: Approval): Response
    requires a.decision.Some?
  {
    Response(a.decision.value, a.feedback)
  }

  predicate SameSubmission(a: Approval, sub: Submission) {
    && a.fingerprint == sub.fingerprint
    && a.decision == Some(sub.decision)
    && a.feedback == sub.feedback
  }

  // ----------------------------------------------------------------- control

  datatype Caller = Start | Submit(revision: nat)

  /** Progress inside one action: claimed, written, or about to record a failure. */
  datatype Phase =
    | Ready
    | ActionClaimed
    | ActionWritten(result: ToolResult)
    | ActionFailing(error: DomainError)
    | Stopped

  datatype Control =
    | Idle
    | Inspecting(revision: nat)
    | Advancing(caller: Caller, resume: Option<Response>)
    | Executing(caller: Caller, index: nat, records: seq<Record>, phase: Phase)
    | Persisting(caller: Caller, progress: Progress)

  datatype World = World(
    run: Option<RunRow>,
    approvals: map<nat, Approval>,
    checkpoint: Checkpoint,
    executions: map<Identity, Row>,
    writes: multiset<Identity>,
    control: Control)

  /** A run is being started: nothing but the first checkpoint exists. */
  const INITIAL_WORLD :=
    World(None, map[], INITIAL_CHECKPOINT, map[], multiset{}, Advancing(Start, None))

  /** What the outside answers to one atomic step. */
  datatype Reply = Reply(node: Answer, tool: ExecutionAnswer)

  datatype Event =
    | Begin(submission: Submission)
    | Tick(reply: Reply)
    | Crash

  // ------------------------------------------------------------------- steps

  predicate IsLatest(approvals: map<nat, Approval>, revision: nat) {
    revision in approvals && forall r :: r in approvals ==> r <= revision
  }

  /** Take the lock, read the rows, and commit a new decision or accept a resend of a committed one. */
  function BeginSubmission(w: World, sub: Submission): World {
    if w.control != Idle || w.run.None? || sub.revision !in w.approvals then w
    else
      var run, approval := w.run.value, w.approvals[sub.revision];
      if approval.decision.None? then
        if run.status != PendingApproval || !IsLatest(w.approvals, sub.revision)
           || approval.fingerprint != sub.fingerprint
        then w
        else w.(approvals := w.approvals[sub.revision :=
                               Approval(approval.fingerprint, Some(sub.decision), sub.feedback)],
                run := Some(run.(status := Running)),
                control := Inspecting(sub.revision))
      else if !SameSubmission(approval, sub) || run.status == Pending then w
      else w.(control := Inspecting(sub.revision))
  }

  /** Look at the checkpoint and choose between resuming, continuing and reconciling. */
  function InspectStep(fp: Fingerprinter, w: World, revision: nat): World
    requires w.run.Some? && revision in w.approvals && w.approvals[revision].decision.Some?
  {
    var run, approval := w.run.value, w.approvals[revision];
    match Inspect(fp, w.checkpoint)
    case Inconsistent => w.(control := Idle)
    case TerminalAt(output) =>
      if run.status.Ended? && AlreadyMatches(run, output) then w.(control := Idle)
      else w.(control := Persisting(Submit(revision), Finished(output)))
    case Continuable =>
      if run.status != Running then w.(control := Idle)
      else w.(control := Advancing(Submit(revision), None))
    case Interrupted(i) =>
      if i.revision == revision && i.fingerprint == approval.fingerprint then
        if run.status != Running then w.(control := Idle)
        else w.(control := Advancing(Submit(revision), Some(StoredResponse(approval))))
      else if approval.decision == Some(RequestChanges) && i.revision == revision + 1 then
        w.(control := Persisting(Submit(revision), AtApproval(i)))
      else w.(control := Idle)
  }

  /** Execute one node and save its checkpoint, or leave the graph at its boundary. */
  function AdvanceStep(fp: Fingerprinter, w: World, caller: Caller, resume: Option<Response>, a: Answer): World {
    var c := w.checkpoint;
    if c.interrupt.Some? && resume.None? then
      w.(control := Persisting(caller, AtApproval(c.interrupt.value)))
    else if c.next == End then
      match Inspect(fp, c) {
        case TerminalAt(output) => w.(control := Persisting(caller, Finished(output)))
        case _ => w.(control := Idle)
      }
    else if c.next == Fault then w.(control := Idle)
    else if c.next == Request && resume.None? then
      if Bound(fp, c.state) && a.ok
      then w.(checkpoint := c.(interrupt := Some(Interrupt(c.state.revisionCount, fp(c.state.proposal.value)))))
      else w.(checkpoint := Checkpoint(Fail(c.state, ApprovalFailed), Verify, None))
    else if c.next == Request then
      var t := RequestApproval(fp, c.state, a.(response := resume.value));
      w.(checkpoint := Checkpoint(t, RouteApproval(t), None), control := Advancing(caller, None))
    else if c.next == Execute then
      if Authorized(fp, c.state) && a.ok then w.(control := Executing(caller, 0, [], Ready))
      else w.(checkpoint := Checkpoint(Fail(c.state, ExecutionNodeFailed), Verify, None))
    else
      var (t, next) := Step(fp, c.next, c.state, a);
      w.(checkpoint := Checkpoint(t, next, None))
  }

  function IdentityOf(fp: Fingerprinter, s: GraphState, action: Action): Identity
    requires s.proposal.Some?
  {
    Identity(s.revisionCount, fp(s.proposal.value), action.key)
  }

  /** The approval that a high-impact claim looks up in the product rows. */
  predicate PersistedApproval(approvals: map<nat, Approval>, id: Identity) {
    && id.revision in approvals
    && approvals[id.revision].decision == Some(Approved)
    && approvals[id.revision].fingerprint == id.fingerprint
  }

  function Pushed(w: World, action: Action, result: ToolResult): World
    requires w.control.Executing?
  {
    var k := w.control;
    w.(control := Executing(k.caller, k.index + 1, k.records + [RecordOf(action, Succeeded(result))], Ready))
  }

  function StoppedBy(w: World, action: Action, e: DomainError): World
    requires w.control.Executing?
  {
    var k := w.control;
    w.(control := k.(records := k.records + [RecordOf(action, Failed(e))], phase := Stopped))
  }

  /** The claim transaction of the current action, and the replay of a completed one. */
  function ClaimPhase(w: World, action: Action, id: Identity, a: Reply): World
    requires w.control.Executing?
  {
    if !a.node.ok then StoppedBy(w, action, OtherError)
    else
      var (rows, told) := ClaimStep(w.executions, id, action.tool,
                                    PersistedApproval(w.approvals, id), a.tool.now, a.tool.claim);
      var v := w.(executions := rows);
      match told
      case Refused => StoppedBy(v, action, OtherError)
      case ToExecute => v.(control := w.control.(phase := ActionClaimed))
      case ToReplay(row) =>
        var result := LoadPublicResult(row, a.tool.loaded);
        if result.Some? && ResultFits(action.tool, result.value)
        then Pushed(v, action, result.value) else StoppedBy(v, action, OtherError)
  }

  /** The domain call of a claimed action. */
  function DispatchPhase(w: World, action: Action, id: Identity, d: Dispatch): World
    requires w.control.Executing?
  {
    var v := w.(writes := if Wrote(d) then w.writes + multiset{id} else w.writes);
    if d.Returned? && ResultFits(action.tool, d.result)
    then v.(control := w.control.(phase := ActionWritten(d.result)))
    else v.(control := w.control.(phase := ActionFailing(if d.Raised? then d.error else OtherError)))
  }

  /** The transaction that completes the row of a written action. */
  function CompletionPhase(w: World, action: Action, id: Identity, result: ToolResult, a: Reply): World
    requires w.control.Executing?
  {
    var (rows, done) := CompletionStep(w.executions, id, result, a.tool.now, a.tool.completion);
    var v := w.(executions := rows);
    if done then Pushed(v, action, result)
    else v.(control := w.control.(phase := ActionFailing(OtherError)))
  }

  /** The transaction that marks the row of a failed action. */
  function FailurePhase(w: World, action: Action, id: Identity, e: DomainError, a: Reply): World
    requires w.control.Executing?
  {
    StoppedBy(w.(executions := FailureStep(w.executions, id, e, a.tool.now, a.tool.failure)), action,
              ReportedError(w.executions, id, e, a.tool.failure))
  }

  /** One commit inside the execution node. */
  function ExecuteStep(fp: Fingerprinter, w: World, a: Reply): World
    requires w.control.Executing? && w.checkpoint.state.proposal.Some?
  {
    var k, s := w.control, w.checkpoint.state;
    var actions := s.proposal.value.actions;
    if k.index >= |actions| || k.phase == Stopped then
      w.(checkpoint := Checkpoint(FinishExecution(s, k.records), Verify, None),
         control := Advancing(k.caller, None))
    else
      var action := actions[k.index];
      var id := IdentityOf(fp, s, action);
      match k.phase
      case Ready => ClaimPhase(w, action, id, a)
      case ActionClaimed => DispatchPhase(w, action, id, a.tool.dispatch)
      case ActionWritten(result) => CompletionPhase(w, action, id, result, a)
      case ActionFailing(e) => FailurePhase(w, action, id, e, a)
      case Stopped => w
  }

  /** The row that this progress leaves the run with. */
  function Written(w: World, p: Progress): RunRow {
    WriteProgress(if w.run.Some? then w.run.value else NEW_RUN, p)
  }

  /** The table accepts the run values, and a boundary that already has a row finds it pending. */
  predicate PersistCommits(w: World, p: Progress) {
    && TokenCheck(Written(w, p).counters)
    && (p.AtApproval? && p.interrupt.revision in w.approvals ==>
          && w.approvals[p.interrupt.revision].decision.None?
          && w.approvals[p.interrupt.revision].fingerprint == p.interrupt.fingerprint)
  }

  /** The last product transaction: write the run values and, at a new approval boundary, its row. */
  function PersistStep(w: World, p: Progress): World {
    if !PersistCommits(w, p) then w.(control := Idle)
    else match p
      case Finished(_) => w.(run := Some(Written(w, p)), control := Idle)
      case AtApproval(i) =>
        w.(run := Some(Written(w, p)),
           approvals := if i.revision in w.approvals then w.approvals
                        else w.approvals[i.revision := Approval(i.fingerprint, None, None)],
           control := Idle)
  }

  /** One atomic step of whoever holds the lock. */
  function TickStep(fp: Fingerprinter, w: World, a: Reply): World {
    match w.control
    case Idle => w
    case Inspecting(revision) =>
      if w.run.Some? && revision in w.approvals && w.approvals[revision].decision.Some?
      then InspectStep(fp, w, revision) else w.(control := Idle)
    case Advancing(caller, resume) => AdvanceStep(fp, w, caller, resume, a.node)
    case Executing(_, _, _, _) =>
      if w.checkpoint.state.proposal.Some? then ExecuteStep(fp, w, a) else w.(control := Idle)
    case Persisting(_, p) => PersistStep(w, p)
  }

  function Apply(fp: Fingerprinter, w: World, e: Event): World {
    match e
    case Begin(sub) => BeginSubmission(w, sub)
    case Tick(a) => TickStep(fp, w, a)
    case Crash => w.(control := Idle)
  }

  /** Any interleaving of submissions, resends, atomic steps and crashes. */
  function Run(fp: Fingerprinter, w: World, events: seq<Event>): World
    decreases |events|
  {
    if events == [] then w else Run(fp, Apply(fp, w, events[0]), events[1..])
  }

  /** A world that some history of the run leads to. */
  ghost predicate Reachable(fp: Fingerprinter, w: World) {
    exists events :: Run(fp, INITIAL_WORLD, events) == w
  }
}
