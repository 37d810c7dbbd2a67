/** Reachable histories that show how the protocol can end: a run stuck by a crash, a run stuck by
    its token counters, and a failed run whose action was written or not. */
module ApprovalWitnesses {
  import opened Options
  import opened RunMetrics
  import opened AgentState
  import opened AgentNodes
  import opened AgentGraph
  import opened ToolExecutions
  import opened ApprovalProtocol
  import opened ApprovalInvariant
  import opened ApprovalTheorems
  import opened ApprovalRecovery
  import opened ApprovalCounters

  lemma {:induction false} RunOneMore(fp: Fingerprinter, w: World, events: seq<Event>, e: Event)
    ensures Run(fp, w, events + [e]) == Apply(fp, Run(fp, w, events), e)
    decreases |events|
  {
    if events == [] {
      assert Run(fp, Apply(fp, w, e), []) == Apply(fp, w, e);
    } else {
      assert (events + [e])[1..] == events[1..] + [e];
      RunOneMore(fp, Apply(fp, w, events[0]), events[1..], e);
    }
  }

  lemma ReachesNext(fp: Fingerprinter, w: World, e: Event)
    requires Reachable(fp, w)
    ensures Reachable(fp, Apply(fp, w, e))
  {
    var events :| Run(fp, INITIAL_WORLD, events) == w;
    RunOneMore(fp, INITIAL_WORLD, events, e);
  }

  // --------------------------------------------------------- to the first approval

  /** A start in progress, about to execute node `n` of the first revision. */
  ghost predicate StartingAt(w: World, n: Node) {
    && w.control == Advancing(Start, None) && w.run.None? && w.approvals == map[]
    && w.executions == map[] && w.writes == multiset{}
    && w.checkpoint.next == n && w.checkpoint.interrupt.None?
    && Unfinished(w.checkpoint.state) && w.checkpoint.state.revisionCount == 0
    && (n != Analyze ==> w.checkpoint.state.analysis.Some?)
    && (n != Analyze && n != Load ==> w.checkpoint.state.context.Some?)
  }

  /** The plan in the checkpoint is the one just generated, with its metrics. */
  predicate Planned(s: GraphState, a: Answer) {
    s.proposal == Some(a.proposal) && s.metrics == Some(a.meter)
  }

  function After(n: Node): Node {
    match n case Analyze => Load case Load => Generate case Generate => Validate case _ => Request
  }

  lemma StartStep(fp: Fingerprinter, w: World, a: Reply, n: Node)
    requires StartingAt(w, n) && a.node.ok && a.node.planAccepted
    requires n == Analyze || n == Load || n == Generate || n == Validate
    requires n == Generate ==> w.checkpoint.state.metrics.None?
    requires n == Validate ==> Planned(w.checkpoint.state, a.node)
    ensures var v := TickStep(fp, w, a);
            && StartingAt(v, After(n))
            && (n == Analyze || n == Load ==> v.checkpoint.state.metrics == w.checkpoint.state.metrics)
            && (n == Generate || n == Validate ==> Planned(v.checkpoint.state, a.node))
            && (n == Validate ==> Bound(fp, v.checkpoint.state))
  {
  }

  /** A committed first boundary, with nothing executed. */
  ghost predicate AtBoundary(fp: Fingerprinter, w: World, f: Fingerprint) {
    && Reachable(fp, w) && w.control == Idle
    && w.run.Some? && w.run.value.status == PendingApproval
    && w.approvals == map[0 := Approval(f, None, None)]
    && w.checkpoint.next == Request && w.checkpoint.state.revisionCount == 0
    && w.checkpoint.interrupt == Some(Interrupt(0, f))
    && w.executions == map[] && w.writes == multiset{}
  }

  /** Starting with helpful answers reaches the first approval boundary. */
  lemma StartReachesApproval(fp: Fingerprinter, a: Reply) returns (w: World)
    requires a.node.ok && a.node.planAccepted
    ensures AtBoundary(fp, w, fp(a.node.proposal)) && Planned(w.checkpoint.state, a.node)
  {
    var w1 := PlanStarted(fp, a);
    StartStep(fp, w1, a, Generate);
    ReachesNext(fp, w1, Tick(a));
    var w2 := TickStep(fp, w1, a);
    StartStep(fp, w2, a, Validate);
    ReachesNext(fp, w2, Tick(a));
    w := AskAndCommit(fp, TickStep(fp, w2, a), a);
  }

  lemma PlanStarted(fp: Fingerprinter, a: Reply) returns (w: World)
    requires a.node.ok && a.node.planAccepted
    ensures Reachable(fp, w) && StartingAt(w, Generate) && w.checkpoint.state.metrics.None?
  {
    assert Run(fp, INITIAL_WORLD, []) == INITIAL_WORLD;
    StartStep(fp, INITIAL_WORLD, a, Analyze);
    ReachesNext(fp, INITIAL_WORLD, Tick(a));
    var w1 := TickStep(fp, INITIAL_WORLD, a);
    StartStep(fp, w1, a, Load);
    ReachesNext(fp, w1, Tick(a));
    w := TickStep(fp, w1, a);
  }

  lemma AskAndCommit(fp: Fingerprinter, w: World, a: Reply) returns (v: World)
    requires StartingAt(w, Request) && Reachable(fp, w) && a.node.ok
    requires Bound(fp, w.checkpoint.state) && Planned(w.checkpoint.state, a.node)
    ensures AtBoundary(fp, v, fp(a.node.proposal)) && Planned(v.checkpoint.state, a.node)
  {
    var i := Interrupt(0, fp(a.node.proposal));
    var w1 := TickStep(fp, w, a);
    ReachesNext(fp, w, Tick(a));
    assert w1 == w.(checkpoint := w.checkpoint.(interrupt := Some(i)));
    var w2 := TickStep(fp, w1, a);
    ReachesNext(fp, w1, Tick(a));
    assert w2 == w1.(control := Persisting(Start, AtApproval(i)));
    v := PersistStep(w2, AtApproval(i));
    ReachesNext(fp, w2, Tick(a));
  }

  // ---------------------------------------------------------------- the decision

  /** The first revision is decided and the run is under way. */
  ghost predicate Decided(fp: Fingerprinter, w: World, f: Fingerprint, d: Decision) {
    && Reachable(fp, w)
    && w.run.Some? && w.run.value.status == Running
    && w.approvals == map[0 := Approval(f, Some(d), None)]
    && w.executions == map[] && w.writes == multiset{}
  }

  lemma DecisionIsCommitted(fp: Fingerprinter, w: World, f: Fingerprint, d: Decision) returns (v: World)
    requires AtBoundary(fp, w, f)
    ensures Decided(fp, v, f, d) && v.control == Inspecting(0) && v.checkpoint == w.checkpoint
  {
    var sub := Submission(0, f, d, None);
    v := BeginSubmission(w, sub);
    ReachesNext(fp, w, Begin(sub));
  }

  lemma DecisionIsResumed(fp: Fingerprinter, w: World, f: Fingerprint, d: Decision, a: Reply) returns (v: World)
    requires AtBoundary(fp, w, f)
    ensures Decided(fp, v, f, d) && v.control == Advancing(Submit(0), Some(Response(d, None)))
    ensures v.checkpoint == w.checkpoint && CheckpointOk(fp, v.checkpoint)
  {
    var u := DecisionIsCommitted(fp, w, f, d);
    v := InspectStep(fp, u, 0);
    ReachesNext(fp, u, Tick(a));
    ReachableInv(fp, v);
  }

  /** The process applies the stored decision and saves its checkpoint. */
  lemma DecisionIsApplied(fp: Fingerprinter, w: World, f: Fingerprint, d: Decision, a: Reply)
    requires CheckpointOk(fp, w.checkpoint) && a.node.ok && d != RequestChanges
    requires w.control == Advancing(Submit(0), Some(Response(d, None)))
    requires w.checkpoint.next == Request && w.checkpoint.interrupt == Some(Interrupt(0, f))
    ensures var v := TickStep(fp, w, a);
            && v == w.(checkpoint := v.checkpoint, control := Advancing(Submit(0), None))
            && v.checkpoint.interrupt.None?
            && v.checkpoint.next == (if d == Approved then Execute else Verify)
            && v.checkpoint.state.proposal == w.checkpoint.state.proposal
            && v.checkpoint.state.metrics == w.checkpoint.state.metrics
            && (d == Rejected ==> v.checkpoint.state.terminal == Some(RunRejected))
  {
  }

  /** Deciding the first revision, up to the checkpoint of the approval node. */
  lemma DecisionIsRecorded(fp: Fingerprinter, a: Reply, d: Decision) returns (w: World)
    requires a.node.ok && a.node.planAccepted && d != RequestChanges
    ensures Decided(fp, w, fp(a.node.proposal), d) && w.control == Advancing(Submit(0), None)
    ensures w.checkpoint.next == (if d == Approved then Execute else Verify) && w.checkpoint.interrupt.None?
    ensures Planned(w.checkpoint.state, a.node)
    ensures d == Rejected ==> w.checkpoint.state.terminal == Some(RunRejected)
  {
    var f := fp(a.node.proposal);
    var w0 := StartReachesApproval(fp, a);
    var w1 := DecisionIsResumed(fp, w0, f, d, a);
    DecisionIsApplied(fp, w1, f, d, a);
    w := TickStep(fp, w1, a);
    ReachesNext(fp, w1, Tick(a));
  }

  /** A rejection whose process dies right after the approval node is stuck: the decision is
      committed, the run stays RUNNING, and no resend can finish it. */
  lemma RejectionCanGetStuck(fp: Fingerprinter, a: Reply) returns (w: World)
    requires a.node.ok && a.node.planAccepted
    ensures Reachable(fp, w) && w.control == Idle
    ensures w.run.Some? && w.run.value.status == Running
    ensures Inspect(fp, w.checkpoint) == Inconsistent
    ensures forall events :: Stored(Run(fp, w, events)) == Stored(w)
  {
    var u := DecisionIsRecorded(fp, a, Rejected);
    w := Stored(u);
    ReachesNext(fp, u, Crash);
    ReachableInv(fp, w);
    InconsistentExactly(fp, w);
    forall events ensures Stored(Run(fp, w, events)) == Stored(w) {
      StuckForever(fp, w, events);
    }
  }

  // -------------------------------------------------------------- the end of a run

  lemma VerifyTick(fp: Fingerprinter, w: World, a: Reply)
    requires w.control == Advancing(Submit(0), None)
    requires w.checkpoint.next == Verify && w.checkpoint.interrupt.None?
    ensures TickStep(fp, w, a) == w.(checkpoint := Checkpoint(VerifyNode(fp, w.checkpoint.state), Finish, None))
  {
  }

  lemma FinishTick(fp: Fingerprinter, w: World, a: Reply, o: Output)
    requires w.control == Advancing(Submit(0), None)
    requires w.checkpoint.next == Finish && w.checkpoint.interrupt.None?
    requires Summarize(fp, w.checkpoint.state) == Some(o)
    ensures TickStep(fp, w, a)
         == w.(checkpoint := Checkpoint(w.checkpoint.state.(terminal := Some(o.status), summary := Some(o.summary)),
                                        End, None))
  {
  }

  lemma LeaveTick(fp: Fingerprinter, w: World, a: Reply, o: Output)
    requires w.control == Advancing(Submit(0), None) && w.checkpoint.next == End && w.checkpoint.interrupt.None?
    requires Inspect(fp, w.checkpoint) == TerminalAt(o)
    ensures TickStep(fp, w, a) == w.(control := Persisting(Submit(0), Finished(o)))
  {
  }

  /** Summarizing twice gives the same output: the node writes back what it read. */
  lemma SummaryIsStable(fp: Fingerprinter, s: GraphState)
    requires Summarize(fp, s).Some?
    ensures var o := Summarize(fp, s).value;
            Summarize(fp, s.(terminal := Some(o.status), summary := Some(o.summary))) == Some(o)
  {
  }

  lemma VerifiedSummary(fp: Fingerprinter, s: GraphState)
    ensures var t := VerifyNode(fp, s);
            && Summarize(fp, t).Some?
            && Summarize(fp, t).value.status == VerifyResult(fp, s).1
            && Summarize(fp, t).value.metrics == s.metrics
  {
  }

  /** From the verifying node the run goes on to the commit of its output. */
  lemma RunsOut(fp: Fingerprinter, w: World, a: Reply) returns (v: World, o: Output)
    requires Reachable(fp, w) && w.control == Advancing(Submit(0), None)
    requires w.checkpoint.next == Verify && w.checkpoint.interrupt.None?
    ensures Reachable(fp, v) && v.control == Persisting(Submit(0), Finished(o))
    ensures Inspect(fp, v.checkpoint) == TerminalAt(o)
    ensures o.status == VerifyResult(fp, w.checkpoint.state).1 && o.metrics == w.checkpoint.state.metrics
    ensures v == w.(checkpoint := v.checkpoint, control := v.control)
  {
    var s := VerifyNode(fp, w.checkpoint.state);
    VerifiedSummary(fp, w.checkpoint.state);
    o := Summarize(fp, s).value;
    VerifyTick(fp, w, a);
    ReachesNext(fp, w, Tick(a));
    var w1 := TickStep(fp, w, a);
    FinishTick(fp, w1, a, o);
    ReachesNext(fp, w1, Tick(a));
    var w2 := TickStep(fp, w1, a);
    SummaryIsStable(fp, s);
    LeaveTick(fp, w2, a, o);
    ReachesNext(fp, w2, Tick(a));
    v := TickStep(fp, w2, a);
  }

  // ------------------------------------------------------- stuck by its counters

  /** The run is decided and its checkpoint finished, with counters that the table refuses. */
  ghost predicate CountersRefused(fp: Fingerprinter, w: World, o: Output) {
    && w.run.Some? && w.run.value.status == Running
    && Inspect(fp, w.checkpoint) == TerminalAt(o)
    && o.metrics.Some? && !TokenCheck(PersistedCounters(o.metrics.value))
  }

  predicate OnlyReconciling(k: Control, o: Output) {
    k == Idle || k.Inspecting? || (k.Persisting? && k.progress == Finished(o))
  }

  lemma RefusedSubmission(w: World, sub: Submission)
    requires History(w.run, w.approvals) && w.run.Some? && w.run.value.status == Running
    ensures Stored(BeginSubmission(w, sub)) == Stored(w)
    ensures BeginSubmission(w, sub).control == w.control || BeginSubmission(w, sub).control.Inspecting?
  {
  }

  lemma RefusedTick(fp: Fingerprinter, w: World, a: Reply, o: Output)
    requires ControlOk(fp, w) && CountersRefused(fp, w, o) && OnlyReconciling(w.control, o)
    ensures Stored(TickStep(fp, w, a)) == Stored(w) && OnlyReconciling(TickStep(fp, w, a).control, o)
  {
    match w.control {
      case Idle =>
      case Inspecting(r) => assert TickStep(fp, w, a) == InspectStep(fp, w, r);
      case Persisting(_, p) => assert !PersistCommits(w, p);
    }
  }

  lemma RefusedStep(fp: Fingerprinter, w: World, e: Event, o: Output)
    requires Inv(fp, w) && CountersRefused(fp, w, o) && OnlyReconciling(w.control, o)
    ensures Stored(Apply(fp, w, e)) == Stored(w) && OnlyReconciling(Apply(fp, w, e).control, o)
  {
    match e {
      case Begin(sub) => RefusedSubmission(w, sub);
      case Crash =>
      case Tick(a) => RefusedTick(fp, w, a, o);
    }
  }

  /** No sequence of submissions, resends and crashes ever changes any store of such a run again. */
  lemma {:induction false} RefusedForever(fp: Fingerprinter, w: World, events: seq<Event>, o: Output)
    requires Inv(fp, w) && CountersRefused(fp, w, o) && OnlyReconciling(w.control, o)
    ensures Stored(Run(fp, w, events)) == Stored(w)
    decreases |events|
  {
    if events != [] {
      RefusedStep(fp, w, events[0], o);
      ApplyKeepsInv(fp, w, events[0]);
      RefusedForever(fp, Apply(fp, w, events[0]), events[1..], o);
    }
  }

  /** Whenever the generated plan's token counters do not add up, a decided run can be reached whose
      outcome is never stored: the table refuses it on every resend. */
  lemma UnbalancedRunGetsStuck(fp: Fingerprinter, a: Reply) returns (w: World)
    requires a.node.ok && a.node.planAccepted && !BalancedReply(a)
    ensures Reachable(fp, w) && w.control == Idle
    ensures w.run.Some? && w.run.value.status == Running && Inspect(fp, w.checkpoint).TerminalAt?
    ensures forall events :: Stored(Run(fp, w, events)) == Stored(w)
  {
    var u := DecisionIsRecorded(fp, a, Rejected);
    var v, o := RunsOut(fp, u, a);
    w := Stored(v);
    ReachesNext(fp, v, Crash);
    ReachableInv(fp, w);
    forall events ensures Stored(Run(fp, w, events)) == Stored(w) {
      RefusedForever(fp, w, events, o);
    }
  }

  // ------------------------------------------------------- failed, written or not

  /** The execution node is at its first action. */
  ghost predicate AtAction(fp: Fingerprinter, w: World, p: Proposal, phase: Phase) {
    && Reachable(fp, w) && w.control == Executing(Submit(0), 0, [], phase)
    && w.checkpoint.state.proposal == Some(p) && p.actions != []
  }

  ghost function FirstId(fp: Fingerprinter, w: World): Identity
    requires w.checkpoint.state.proposal.Some? && w.checkpoint.state.proposal.value.actions != []
  {
    IdentityOf(fp, w.checkpoint.state, w.checkpoint.state.proposal.value.actions[0])
  }

  lemma ApprovedIsClaimed(fp: Fingerprinter, a: Reply) returns (w: World)
    requires a.node.ok && a.node.planAccepted && a.node.proposal.actions != [] && a.tool.claim == Committed
    ensures AtAction(fp, w, a.node.proposal, ActionClaimed) && Planned(w.checkpoint.state, a.node)
    ensures w.writes == multiset{} && w.run.Some? && w.run.value.status == Running
    ensures Claimed(w.executions, w.writes, FirstId(fp, w), a.node.proposal.actions[0].tool)
  {
    var w0 := DecisionIsRecorded(fp, a, Approved);
    ReachableInv(fp, w0);
    var w1 := w0.(control := Executing(Submit(0), 0, [], Ready));
    assert w1 == TickStep(fp, w0, a);
    ReachesNext(fp, w0, Tick(a));
    w := FirstClaim(fp, w1, a);
  }

  lemma FirstClaim(fp: Fingerprinter, w: World, a: Reply) returns (v: World)
    requires AtAction(fp, w, a.node.proposal, Ready) && w.executions == map[] && w.writes == multiset{}
    requires a.node.ok && a.tool.claim == Committed
    requires PersistedApproval(w.approvals, FirstId(fp, w))
    ensures AtAction(fp, v, a.node.proposal, ActionClaimed)
    ensures v == w.(executions := v.executions, control := v.control)
    ensures Claimed(v.executions, v.writes, FirstId(fp, v), a.node.proposal.actions[0].tool)
  {
    v := TickStep(fp, w, a);
    ReachesNext(fp, w, Tick(a));
    assert v == ClaimPhase(w, a.node.proposal.actions[0], FirstId(fp, w), a);
  }

  /** The answer leaves the caller without a result: the call raises an exception that proves
      nothing, or it returns and its completion is rolled back. */
  predicate LeavesDoubt(a: Reply, tool: Tool) {
    match a.tool.dispatch
    case Raised(e, _) => e == OtherError
    case Returned(r) => ResultFits(tool, r) && a.tool.completion == RolledBack
  }

  lemma DoubtIsReached(fp: Fingerprinter, w: World, a: Reply) returns (v: World)
    requires AtAction(fp, w, a.node.proposal, ActionClaimed)
    requires Claimed(w.executions, w.writes, FirstId(fp, w), a.node.proposal.actions[0].tool)
    requires LeavesDoubt(a, a.node.proposal.actions[0].tool)
    ensures AtAction(fp, v, a.node.proposal, ActionFailing(OtherError))
    ensures v == w.(writes := v.writes, control := v.control)
    ensures v.writes == if Wrote(a.tool.dispatch) then w.writes + multiset{FirstId(fp, w)} else w.writes
  {
    v := TickStep(fp, w, a);
    ReachesNext(fp, w, Tick(a));
    if a.tool.dispatch.Returned? {
      assert v == w.(writes := w.writes + multiset{FirstId(fp, w)},
                     control := Executing(Submit(0), 0, [], ActionWritten(a.tool.dispatch.result)));
      v := CompletionIsLost(fp, v, a, a.tool.dispatch.result);
    }
  }

  lemma CompletionIsLost(fp: Fingerprinter, w: World, a: Reply, result: ToolResult) returns (v: World)
    requires AtAction(fp, w, a.node.proposal, ActionWritten(result)) && a.tool.completion == RolledBack
    ensures AtAction(fp, v, a.node.proposal, ActionFailing(OtherError))
    ensures v == w.(control := v.control)
  {
    v := TickStep(fp, w, a);
    ReachesNext(fp, w, Tick(a));
  }

  /** The failure is recorded as unknown. */
  lemma DoubtIsMarked(fp: Fingerprinter, w: World, a: Reply)
    requires AtAction(fp, w, a.node.proposal, ActionFailing(OtherError)) && a.tool.failure == Committed
    requires FirstId(fp, w) in w.executions && w.executions[FirstId(fp, w)].status == InProgress
    ensures var v := TickStep(fp, w, a);
            && v == w.(executions := v.executions, control := v.control)
            && v.control == Executing(Submit(0), 0, [RecordOf(a.node.proposal.actions[0], Failed(OtherError))], Stopped)
            && FirstId(fp, w) in v.executions && v.executions[FirstId(fp, w)].status == Unknown
  {
    assert TickStep(fp, w, a) == FailurePhase(w, a.node.proposal.actions[0], FirstId(fp, w), OtherError, a);
  }

  /** Then the execution node saves its one failed record. */
  lemma DoubtIsRecorded(fp: Fingerprinter, w: World, a: Reply) returns (v: World)
    requires AtAction(fp, w, a.node.proposal, ActionFailing(OtherError)) && a.tool.failure == Committed
    requires FirstId(fp, w) in w.executions && w.executions[FirstId(fp, w)].status == InProgress
    ensures Reachable(fp, v) && v.control == Advancing(Submit(0), None)
    ensures v.checkpoint.next == Verify && v.checkpoint.interrupt.None?
    ensures v.checkpoint.state
         == FinishExecution(w.checkpoint.state, [RecordOf(a.node.proposal.actions[0], Failed(OtherError))])
    ensures v == w.(executions := v.executions, checkpoint := v.checkpoint, control := v.control)
    ensures FirstId(fp, w) in v.executions && v.executions[FirstId(fp, w)].status == Unknown
  {
    DoubtIsMarked(fp, w, a);
    var u := TickStep(fp, w, a);
    ReachesNext(fp, w, Tick(a));
    ExecutionEnds(fp, u, a);
    v := ExecuteStep(fp, u, a);
    ReachesNext(fp, u, Tick(a));
  }

  lemma OneFailureFails(fp: Fingerprinter, s: GraphState, action: Action)
    requires GraphInv(fp, Verify, s) && s.records == [RecordOf(action, Failed(OtherError))]
    ensures VerifyResult(fp, s).1 == RunFailed
  {
    SucceededExactly(fp, s);
    PartialFailureExactly(fp, s);
    RejectedExactly(fp, s);
  }

  /** A FAILED run does not tell whether its action was written: for every proposal with an action,
      both can be reached, with the same row. */
  lemma FailedRunLeavesWriteOpen(fp: Fingerprinter, a: Reply) returns (w: World, id: Identity)
    requires a.node.ok && a.node.planAccepted && BalancedReply(a) && a.node.proposal.actions != []
    requires a.tool.claim == Committed && a.tool.failure == Committed
    requires LeavesDoubt(a, a.node.proposal.actions[0].tool)
    ensures Reachable(fp, w) && w.run.Some? && w.run.value.status == Ended(RunFailed)
    ensures id in w.executions && w.executions[id].status == Unknown
    ensures w.writes == if Wrote(a.tool.dispatch) then multiset{id} else multiset{}
  {
    var w1 := ApprovedIsClaimed(fp, a);
    id := FirstId(fp, w1);
    var w2 := DoubtIsReached(fp, w1, a);
    var w3 := DoubtIsRecorded(fp, w2, a);
    w := FailureIsStored(fp, w3, a.node.proposal.actions[0], a);
  }

  lemma OutputIsStored(w: World, o: Output)
    requires w.control == Persisting(Submit(0), Finished(o)) && w.run.Some? && TokenCheck(w.run.value.counters)
    requires o.metrics.Some? ==> BalancedUsage(o.metrics.value.usage)
    ensures var v := PersistStep(w, Finished(o));
            && v.run.Some? && v.run.value.status == Ended(o.status)
            && v.executions == w.executions && v.writes == w.writes
  {
  }

  /** The run is verified, summarized and stored as failed. */
  lemma FailureIsStored(fp: Fingerprinter, w: World, action: Action, a: Reply) returns (v: World)
    requires Reachable(fp, w) && w.control == Advancing(Submit(0), None)
    requires w.checkpoint.next == Verify && w.checkpoint.interrupt.None?
    requires w.checkpoint.state.records == [RecordOf(action, Failed(OtherError))]
    requires BalancedState(w.checkpoint.state) && w.run.Some?
    ensures Reachable(fp, v) && v.run.Some? && v.run.value.status == Ended(RunFailed)
    ensures v.executions == w.executions && v.writes == w.writes
  {
    OneFailureIsFailure(fp, w, action);
    var u, o := RunsOut(fp, w, a);
    OutputIsStored(u, o);
    v := PersistStep(u, Finished(o));
    ReachesNext(fp, u, Tick(a));
  }

  lemma OneFailureIsFailure(fp: Fingerprinter, w: World, action: Action)
    requires Reachable(fp, w) && w.checkpoint.next == Verify && w.run.Some?
    requires w.checkpoint.state.records == [RecordOf(action, Failed(OtherError))]
    ensures VerifyResult(fp, w.checkpoint.state).1 == RunFailed && TokenCheck(w.run.value.counters)
  {
    ReachableInv(fp, w);
    OneFailureFails(fp, w.checkpoint.state, action);
  }
}
