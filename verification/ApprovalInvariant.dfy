/** What every step of the approval protocol keeps. */
module ApprovalInvariant {
  import opened Options
  import opened RunMetrics
  import opened AgentState
  import opened AgentNodes
  import opened AgentGraph
  import opened ToolExecutions
  import opened ApprovalProtocol

  // -------------------------------------------------------- product history

  /** Revisions are contiguous, all but the last ask for changes, and the run waits for approval
      exactly when the last one is pending. */
  ghost predicate History(run: Option<RunRow>, approvals: map<nat, Approval>) {
    var n := |approvals|;
    && (forall r: nat :: r in approvals <==> r < n)
    && (forall r: nat :: r < n - 1 ==> approvals[r].decision == Some(RequestChanges))
    && n <= MAX_PLAN_REVISIONS + 1
    && (run.None? ==> n == 0)
    && (run.Some? ==>
          && run.value.status != Pending
          && TokenCheck(run.value.counters)
          && (run.value.status == PendingApproval <==> n > 0 && approvals[n - 1].decision.None?)
          && (run.value.status == Running ==> n > 0))
  }

  // ------------------------------------------- product rows and checkpoint

  /** The decision that the graph acts on: a change request past the last revision rejects. */
  function Effective(d: Decision, revision: nat): Decision {
    if d == RequestChanges && revision >= MAX_PLAN_REVISIONS then Rejected else d
  }

  /** The checkpoint has moved past the decision on revision `r`, or failed on it; a request for
      changes has left its text for the planner. */
  predicate PastDecision(c: Checkpoint, r: nat, a: Approval)
    requires a.decision.Some?
  {
    var s, d := c.state, Effective(a.decision.value, r);
    || (&& NotApproved(s) && s.error.Some? && s.revisionCount == r
        && (c.next == Verify || c.next == Finish || c.next == End))
    || (&& d == RequestChanges && s.revisionCount == r + 1 && s.decision == Some(RequestChanges)
        && s.feedback == a.feedback
        && c.next != Analyze && c.next != Load && c.next != Execute)
    || (&& d != RequestChanges && s.revisionCount == r && s.decision == Some(d)
        && s.approvalRevision == Some(r) && s.approvalFingerprint == Some(a.fingerprint)
        && (c.next == Verify || c.next == Finish || c.next == End || (c.next == Execute && d == Approved)))
  }

  /** The checkpoint never runs ahead of the committed decisions. */
  ghost predicate Linked(run: Option<RunRow>, approvals: map<nat, Approval>, c: Checkpoint) {
    var n := |approvals|;
    if run.None? then c.state.revisionCount == 0 && c.state.decision.None?
    else if n == 0 then c.next == End && c.state.decision.None? && run.value.status.Ended?
    else
      && n - 1 in approvals
      && var last := approvals[n - 1];
         || c.interrupt == Some(Interrupt(n - 1, last.fingerprint))
         || (last.decision.Some? && PastDecision(c, n - 1, last))
  }

  ghost predicate CheckpointOk(fp: Fingerprinter, c: Checkpoint) {
    && GraphInv(fp, c.next, c.state)
    && (c.interrupt.Some? ==>
          c.next == Request
          && c.interrupt.value == Interrupt(c.state.revisionCount, fp(c.state.proposal.value)))
  }

  /** A finished run row carries the output of the finished checkpoint. */
  ghost predicate OutcomeKept(fp: Fingerprinter, run: Option<RunRow>, c: Checkpoint) {
    run.Some? && run.value.status.Ended? ==>
      && Inspect(fp, c).TerminalAt?
      && AlreadyMatches(run.value, Inspect(fp, c).output)
  }

  // ------------------------------------------------------ execution records

  /** The identities that the approved proposal may write under. */
  function ApprovedIds(fp: Fingerprinter, s: GraphState): set<Identity> {
    if s.decision == Some(Approved) && s.proposal.Some?
    then set action | action in s.proposal.value.actions :: IdentityOf(fp, s, action)
    else {}
  }

  /** Every success record stands on a completed row. */
  ghost predicate Backed(fp: Fingerprinter, s: GraphState, records: seq<Record>, rows: map<Identity, Row>) {
    s.proposal.Some? ==>
      forall i :: 0 <= i < |records| && i < |s.proposal.value.actions| && records[i].outcome.Succeeded? ==>
        var id := IdentityOf(fp, s, s.proposal.value.actions[i]);
        id in rows && rows[id].status == Completed
  }

  /** Rows exist only for the approved proposal, each written at most once. */
  ghost predicate ExecutionsOk(fp: Fingerprinter, s: GraphState,
                               rows: map<Identity, Row>, writes: multiset<Identity>)
  {
    && Ledger(rows, writes)
    && rows.Keys <= ApprovedIds(fp, s)
    && Backed(fp, s, s.records, rows)
  }

  // ------------------------------------------------------------- in flight

  /** The run is between a committed decision and the commit of its progress. */
  ghost predicate Resuming(w: World) {
    && w.run.Some? && w.run.value.status == Running
    && |w.approvals| > 0 && |w.approvals| - 1 in w.approvals
    && w.approvals[|w.approvals| - 1].decision.Some?
  }

  ghost predicate PhaseOk(w: World, id: Identity, tool: Tool, phase: Phase) {
    match phase
    case Ready => true
    case ActionClaimed => Claimed(w.executions, w.writes, id, tool)
    case ActionWritten(_) => Performed(w.executions, w.writes, id, tool)
    case ActionFailing(e) => id in w.executions && (ProvenNoWrite(e) ==> id !in w.writes)
    case Stopped => true
  }

  ghost predicate ExecutingOk(fp: Fingerprinter, w: World)
    requires w.control.Executing?
  {
    var k, s := w.control, w.checkpoint.state;
    && Resuming(w) && k.caller.Submit?
    && w.checkpoint.next == Execute && Authorized(fp, s)
    && var actions := s.proposal.value.actions;
       && Backed(fp, s, k.records, w.executions)
       && (if k.phase == Stopped then StoppedAtFailure(actions, k.records)
           else k.index <= |actions| && AllSucceeded(actions[..k.index], k.records))
       && (k.index < |actions| && k.phase != Stopped ==>
             PhaseOk(w, IdentityOf(fp, s, actions[k.index]), actions[k.index].tool, k.phase))
  }

  ghost predicate AdvancingOk(w: World)
    requires w.control.Advancing?
  {
    if w.control.caller == Start then w.run.None? && w.control.resume.None?
    else
      && Resuming(w)
      && var n := |w.approvals|; var last := w.approvals[n - 1];
         if w.control.resume.Some? then
           && w.checkpoint.interrupt == Some(Interrupt(n - 1, last.fingerprint))
           && w.control.resume.value == StoredResponse(last)
         else w.checkpoint.interrupt.Some? ==> w.checkpoint.interrupt.value.revision == n
  }

  ghost predicate ControlOk(fp: Fingerprinter, w: World) {
    match w.control
    case Idle => true
    case Inspecting(r) => w.run.Some? && r in w.approvals && w.approvals[r].decision.Some?
    case Advancing(_, _) => AdvancingOk(w)
    case Executing(_, _, _, _) => ExecutingOk(fp, w)
    case Persisting(caller, p) =>
      && (caller == Start <==> w.run.None?)
      && match p
         case AtApproval(i) => w.checkpoint.interrupt == Some(i)
         case Finished(o) => Inspect(fp, w.checkpoint) == TerminalAt(o)
  }

  /** What the durable stores keep, crash or no crash. */
  ghost predicate Durable(fp: Fingerprinter, w: World) {
    && CheckpointOk(fp, w.checkpoint)
    && History(w.run, w.approvals)
    && Linked(w.run, w.approvals, w.checkpoint)
    && OutcomeKept(fp, w.run, w.checkpoint)
    && ExecutionsOk(fp, w.checkpoint.state, w.executions, w.writes)
  }

  ghost predicate Inv(fp: Fingerprinter, w: World) {
    Durable(fp, w) && ControlOk(fp, w)
  }

  // ------------------------------------------------------------ preservation

  lemma InitiallyInv(fp: Fingerprinter)
    ensures Inv(fp, INITIAL_WORLD)
  {
  }

  /** Deciding the open revision keeps the history and its link to the checkpoint. */
  lemma DecisionKeepsProduct(run: RunRow, approvals: map<nat, Approval>, c: Checkpoint, r: nat, decided: Approval)
    requires History(Some(run), approvals) && Linked(Some(run), approvals, c)
    requires run.status == PendingApproval && IsLatest(approvals, r)
    requires decided.decision.Some? && decided.fingerprint == approvals[r].fingerprint
    ensures var after := approvals[r := decided];
            && History(Some(run.(status := Running)), after)
            && Linked(Some(run.(status := Running)), after, c)
  {
    var n := |approvals|;
    assert n - 1 in approvals;
    assert r == n - 1;
    assert |approvals[r := decided]| == n;
  }

  lemma BeginKeepsInv(fp: Fingerprinter, w: World, sub: Submission)
    requires Inv(fp, w)
    ensures Inv(fp, BeginSubmission(w, sub))
  {
    var v := BeginSubmission(w, sub);
    if v != w {
      if w.approvals[sub.revision].decision.None? {
        DecisionKeepsProduct(w.run.value, w.approvals, w.checkpoint, sub.revision, v.approvals[sub.revision]);
      } else {
        ControlIsVolatile(fp, w, v.control);
      }
    }
  }

  /** Losing or changing the control state leaves the durable stores as they were. */
  lemma ControlIsVolatile(fp: Fingerprinter, w: World, k: Control)
    requires Durable(fp, w)
    ensures Durable(fp, w.(control := k))
  {
  }

  lemma InspectKeepsInv(fp: Fingerprinter, w: World)
    requires Inv(fp, w) && w.control.Inspecting?
    ensures Inv(fp, InspectStep(fp, w, w.control.revision))
  {
    var v := InspectStep(fp, w, w.control.revision);
    ControlIsVolatile(fp, w, v.control);
    assert v == w.(control := v.control);
    InspectControl(fp, w);
  }

  lemma InspectControl(fp: Fingerprinter, w: World)
    requires w.control.Inspecting? && ControlOk(fp, w)
    requires CheckpointOk(fp, w.checkpoint)
    requires History(w.run, w.approvals)
    requires Linked(w.run, w.approvals, w.checkpoint)
    ensures ControlOk(fp, InspectStep(fp, w, w.control.revision))
  {
    match Inspect(fp, w.checkpoint) {
      case Inconsistent =>
      case TerminalAt(_) =>
      case Continuable => ContinuationControl(fp, w);
      case Interrupted(i) => InterruptControl(fp, w, i);
    }
  }

  lemma ContinuationControl(fp: Fingerprinter, w: World)
    requires w.control.Inspecting? && ControlOk(fp, w) && History(w.run, w.approvals)
    requires Inspect(fp, w.checkpoint) == Continuable
    ensures ControlOk(fp, InspectStep(fp, w, w.control.revision))
  {
    if w.run.value.status == Running {
      RunningIsResuming(w);
    }
  }

  lemma InterruptControl(fp: Fingerprinter, w: World, i: Interrupt)
    requires w.control.Inspecting? && ControlOk(fp, w)
    requires History(w.run, w.approvals) && Linked(w.run, w.approvals, w.checkpoint)
    requires CheckpointOk(fp, w.checkpoint) && Inspect(fp, w.checkpoint) == Interrupted(i)
    ensures ControlOk(fp, InspectStep(fp, w, w.control.revision))
  {
    if w.run.value.status == Running {
      RunningIsResuming(w);
    }
  }

  lemma RunningIsResuming(w: World)
    requires History(w.run, w.approvals) && w.run.Some? && w.run.value.status == Running
    ensures Resuming(w)
  {
  }

  /** Writing the values of a finished checkpoint keeps the product history linked to it. */
  lemma FinishedProduct(run: Option<RunRow>, approvals: map<nat, Approval>, c: Checkpoint, after: RunRow)
    requires History(run, approvals) && Linked(run, approvals, c)
    requires c.interrupt.None? && c.next == End
    requires after.status.Ended? && TokenCheck(after.counters)
    ensures History(Some(after), approvals) && Linked(Some(after), approvals, c)
  {
  }

  /** Writing an approval boundary keeps it too; a new boundary adds the next revision. */
  lemma BoundaryProduct(run: Option<RunRow>, approvals: map<nat, Approval>, c: Checkpoint,
                        i: Interrupt, after: RunRow)
    requires History(run, approvals) && Linked(run, approvals, c)
    requires c.interrupt == Some(i) && i.revision == c.state.revisionCount <= MAX_PLAN_REVISIONS
    requires c.next == Request
    requires after.status == PendingApproval && TokenCheck(after.counters)
    requires i.revision in approvals ==>
               approvals[i.revision] == Approval(i.fingerprint, None, approvals[i.revision].feedback)
    ensures var rows := if i.revision in approvals then approvals
                        else approvals[i.revision := Approval(i.fingerprint, None, None)];
            History(Some(after), rows) && Linked(Some(after), rows, c)
  {
    var n := |approvals|;
    if i.revision !in approvals {
      assert i.revision == n;
      assert |approvals[i.revision := Approval(i.fingerprint, None, None)]| == n + 1;
    } else {
      assert i.revision == n - 1;
    }
  }

  lemma FinishedInspection(fp: Fingerprinter, c: Checkpoint, run: RunRow, o: Output)
    requires Inspect(fp, c) == TerminalAt(o)
    ensures c.interrupt.None? && c.next == End
    ensures OutcomeKept(fp, Some(WriteProgress(run, Finished(o))), c)
  {
  }

  lemma PersistFinished(fp: Fingerprinter, w: World, o: Output)
    requires Durable(fp, w) && Inspect(fp, w.checkpoint) == TerminalAt(o)
    ensures Durable(fp, PersistStep(w, Finished(o)))
  {
    var run := if w.run.Some? then w.run.value else NEW_RUN;
    FinishedInspection(fp, w.checkpoint, run, o);
    var after := WriteProgress(run, Finished(o));
    if TokenCheck(after.counters) {
      FinishedProduct(w.run, w.approvals, w.checkpoint, after);
    }
  }

  lemma PersistBoundary(fp: Fingerprinter, w: World, i: Interrupt)
    requires Durable(fp, w) && w.checkpoint.interrupt == Some(i)
    ensures Durable(fp, PersistStep(w, AtApproval(i)))
  {
    var after := WriteProgress(if w.run.Some? then w.run.value else NEW_RUN, AtApproval(i));
    if TokenCheck(after.counters)
       && (i.revision in w.approvals ==> w.approvals[i.revision].decision.None?
                                         && w.approvals[i.revision].fingerprint == i.fingerprint) {
      BoundaryProduct(w.run, w.approvals, w.checkpoint, i, after);
    }
  }

  lemma PersistKeepsInv(fp: Fingerprinter, w: World)
    requires Inv(fp, w) && w.control.Persisting?
    ensures Inv(fp, PersistStep(w, w.control.progress))
  {
    match w.control.progress {
      case Finished(o) => PersistFinished(fp, w, o);
      case AtApproval(i) => PersistBoundary(fp, w, i);
    }
  }

  /** The execution rows stay owned while the proposal and its records do not change, and
      before any approval there are none. */
  lemma ExecutionsFollow(fp: Fingerprinter, s: GraphState, t: GraphState,
                         rows: map<Identity, Row>, writes: multiset<Identity>)
    requires ExecutionsOk(fp, s, rows, writes)
    requires || (t.decision == s.decision && t.proposal == s.proposal
                 && t.revisionCount == s.revisionCount && t.records == s.records)
             || (s.decision != Some(Approved) && t.records == [])
    ensures ExecutionsOk(fp, t, rows, writes)
  {
  }

  /** A node outside the approval and execution boundaries keeps the link to the decisions. */
  lemma StepKeepsLink(fp: Fingerprinter, run: Option<RunRow>, approvals: map<nat, Approval>,
                      c: Checkpoint, a: Answer)
    requires Linked(run, approvals, c) && GraphInv(fp, c.next, c.state) && c.interrupt.None?
    requires c.next != Request && c.next != Execute && c.next != End
    ensures var (t, next) := Step(fp, c.next, c.state, a);
            && Linked(run, approvals, Checkpoint(t, next, None))
            && (|| (t.decision == c.state.decision && t.proposal == c.state.proposal
                    && t.revisionCount == c.state.revisionCount && t.records == c.state.records)
                || (c.state.decision != Some(Approved) && t.records == []))
  {
  }

  /** Resuming applies exactly the stored decision to exactly the proposal it was made on. */
  lemma ResumeKeepsLink(fp: Fingerprinter, c: Checkpoint, r: nat, last: Approval, a: Answer)
    requires CheckpointOk(fp, c) && c.interrupt == Some(Interrupt(r, last.fingerprint))
    requires last.decision.Some?
    ensures var t := RequestApproval(fp, c.state, a.(response := StoredResponse(last)));
            && PastDecision(Checkpoint(t, RouteApproval(t), None), r, last)
            && GraphInv(fp, RouteApproval(t), t)
            && t.records == [] && c.state.decision != Some(Approved)
  {
    StepPreservesInv(fp, Request, c.state, a.(response := StoredResponse(last)));
  }

  /** A new checkpoint that is in order by itself and towards the product rows keeps the stores durable. */
  lemma NewCheckpoint(fp: Fingerprinter, w: World, c: Checkpoint, k: Control)
    requires Durable(fp, w) && (w.run.Some? ==> !w.run.value.status.Ended?)
    requires CheckpointOk(fp, c) && Linked(w.run, w.approvals, c)
    requires ExecutionsOk(fp, c.state, w.executions, w.writes)
    ensures Durable(fp, w.(checkpoint := c, control := k))
  {
  }

  lemma AdvancingIsOpen(fp: Fingerprinter, w: World)
    requires ControlOk(fp, w) && (w.control.Advancing? || w.control.Executing?)
    ensures w.run.Some? ==> !w.run.value.status.Ended?
  {
  }

  lemma AdvanceLeaves(fp: Fingerprinter, w: World, a: Answer)
    requires Inv(fp, w) && w.control.Advancing?
    requires (w.checkpoint.interrupt.Some? && w.control.resume.None?) || w.checkpoint.next == End
    ensures Inv(fp, AdvanceStep(fp, w, w.control.caller, w.control.resume, a))
  {
    var v := AdvanceStep(fp, w, w.control.caller, w.control.resume, a);
    ControlIsVolatile(fp, w, v.control);
    assert v == w.(control := v.control);
  }

  /** The checkpoint after the approval node asked, or failed to. */
  function Asked(fp: Fingerprinter, c: Checkpoint, ok: bool): Checkpoint
    requires c.state.proposal.Some?
  {
    if ok then c.(interrupt := Some(Interrupt(c.state.revisionCount, fp(c.state.proposal.value))))
    else Checkpoint(Fail(c.state, ApprovalFailed), Verify, None)
  }

  /** Stopping at the approval node, to ask or because it failed, keeps the link. */
  lemma AskKeepsLink(fp: Fingerprinter, run: Option<RunRow>, approvals: map<nat, Approval>, c: Checkpoint, ok: bool)
    requires Linked(run, approvals, c) && CheckpointOk(fp, c) && c.next == Request && c.interrupt.None?
    ensures Linked(run, approvals, Asked(fp, c, ok)) && CheckpointOk(fp, Asked(fp, c, ok))
  {
  }

  lemma AskKeepsDurable(fp: Fingerprinter, w: World, ok: bool)
    requires Durable(fp, w) && (w.run.Some? ==> !w.run.value.status.Ended?)
    requires w.checkpoint.interrupt.None? && w.checkpoint.next == Request
    ensures Durable(fp, w.(checkpoint := Asked(fp, w.checkpoint, ok)))
  {
    var c := Asked(fp, w.checkpoint, ok);
    AskKeepsLink(fp, w.run, w.approvals, w.checkpoint, ok);
    ExecutionsFollow(fp, w.checkpoint.state, c.state, w.executions, w.writes);
    NewCheckpoint(fp, w, c, w.control);
  }

  lemma AskControl(fp: Fingerprinter, w: World, ok: bool)
    requires Inv(fp, w) && w.control.Advancing? && w.control.resume.None?
    requires w.checkpoint.interrupt.None? && w.checkpoint.next == Request
    ensures ControlOk(fp, w.(checkpoint := Asked(fp, w.checkpoint, ok)))
  {
  }

  lemma AdvanceAsks(fp: Fingerprinter, w: World, a: Answer)
    requires Inv(fp, w) && w.control.Advancing? && w.control.resume.None?
    requires w.checkpoint.interrupt.None? && w.checkpoint.next == Request
    ensures Inv(fp, AdvanceStep(fp, w, w.control.caller, w.control.resume, a))
  {
    AskStep(fp, w, a);
    AdvancingIsOpen(fp, w);
    AskKeepsDurable(fp, w, a.ok);
    AskControl(fp, w, a.ok);
  }

  lemma AskStep(fp: Fingerprinter, w: World, a: Answer)
    requires w.control.Advancing? && w.control.resume.None?
    requires w.checkpoint.interrupt.None? && w.checkpoint.next == Request && Bound(fp, w.checkpoint.state)
    ensures AdvanceStep(fp, w, w.control.caller, w.control.resume, a)
         == w.(checkpoint := Asked(fp, w.checkpoint, a.ok))
  {
  }

  lemma AdvanceResumes(fp: Fingerprinter, w: World, a: Answer)
    requires Inv(fp, w) && w.control.Advancing? && w.control.resume.Some?
    ensures Inv(fp, AdvanceStep(fp, w, w.control.caller, w.control.resume, a))
  {
    var n := |w.approvals|;
    var last := w.approvals[n - 1];
    ResumeKeepsLink(fp, w.checkpoint, n - 1, last, a);
    var t := RequestApproval(fp, w.checkpoint.state, a.(response := StoredResponse(last)));
    ExecutionsFollow(fp, w.checkpoint.state, t, w.executions, w.writes);
    AdvancingIsOpen(fp, w);
    var c := Checkpoint(t, RouteApproval(t), None);
    NewCheckpoint(fp, w, c, Advancing(w.control.caller, None));
    ResumeStep(fp, w, a);
  }

  lemma ResumeStep(fp: Fingerprinter, w: World, a: Answer)
    requires w.control.Advancing? && w.control.resume.Some? && w.checkpoint.next == Request
    ensures var t := RequestApproval(fp, w.checkpoint.state, a.(response := w.control.resume.value));
            AdvanceStep(fp, w, w.control.caller, w.control.resume, a)
            == w.(checkpoint := Checkpoint(t, RouteApproval(t), None), control := Advancing(w.control.caller, None))
  {
  }

  lemma ExecutionIsEntered(fp: Fingerprinter, w: World)
    requires Inv(fp, w) && w.control.Advancing? && w.control.resume.None? && w.checkpoint.next == Execute
    ensures Inv(fp, w.(control := Executing(w.control.caller, 0, [], Ready)))
  {
    ControlIsVolatile(fp, w, Executing(w.control.caller, 0, [], Ready));
    EnterControl(fp, w);
  }

  lemma ExecutionIsRefused(fp: Fingerprinter, w: World)
    requires Inv(fp, w) && w.control.Advancing? && w.control.resume.None? && w.checkpoint.next == Execute
    ensures Inv(fp, w.(checkpoint := Checkpoint(Fail(w.checkpoint.state, ExecutionNodeFailed), Verify, None)))
  {
    var c := Checkpoint(Fail(w.checkpoint.state, ExecutionNodeFailed), Verify, None);
    FailedExecutionKeepsLink(fp, w.run, w.approvals, w.checkpoint);
    ExecutionsFollow(fp, w.checkpoint.state, c.state, w.executions, w.writes);
    AdvancingIsOpen(fp, w);
    NewCheckpoint(fp, w, c, w.control);
  }

  lemma AdvanceExecutes(fp: Fingerprinter, w: World, a: Answer)
    requires Inv(fp, w) && w.control.Advancing? && w.control.resume.None?
    requires w.checkpoint.next == Execute
    ensures Inv(fp, AdvanceStep(fp, w, w.control.caller, w.control.resume, a))
  {
    EnterStep(fp, w, a);
    if a.ok {
      ExecutionIsEntered(fp, w);
    } else {
      ExecutionIsRefused(fp, w);
    }
  }

  lemma EnterStep(fp: Fingerprinter, w: World, a: Answer)
    requires w.control.Advancing? && w.control.resume.None? && w.checkpoint.interrupt.None?
    requires w.checkpoint.next == Execute && Authorized(fp, w.checkpoint.state)
    ensures AdvanceStep(fp, w, w.control.caller, w.control.resume, a)
         == if a.ok then w.(control := Executing(w.control.caller, 0, [], Ready))
            else w.(checkpoint := Checkpoint(Fail(w.checkpoint.state, ExecutionNodeFailed), Verify, None))
  {
  }

  lemma EnterControl(fp: Fingerprinter, w: World)
    requires Durable(fp, w) && ControlOk(fp, w) && w.control.Advancing? && w.checkpoint.next == Execute
    ensures ControlOk(fp, w.(control := Executing(w.control.caller, 0, [], Ready)))
  {
  }

  lemma FailedExecutionKeepsLink(fp: Fingerprinter, run: Option<RunRow>, approvals: map<nat, Approval>, c: Checkpoint)
    requires Linked(run, approvals, c) && CheckpointOk(fp, c) && c.next == Execute
    ensures var d := Checkpoint(Fail(c.state, ExecutionNodeFailed), Verify, None);
            Linked(run, approvals, d) && CheckpointOk(fp, d)
  {
  }

  /** The checkpoint after a node outside the approval and execution boundaries. */
  function AfterNode(fp: Fingerprinter, c: Checkpoint, a: Answer): Checkpoint {
    var (t, next) := Step(fp, c.next, c.state, a);
    Checkpoint(t, next, None)
  }

  lemma StepKeepsDurable(fp: Fingerprinter, w: World, a: Answer)
    requires Durable(fp, w) && (w.run.Some? ==> !w.run.value.status.Ended?)
    requires w.checkpoint.interrupt.None?
    requires w.checkpoint.next != Request && w.checkpoint.next != Execute && w.checkpoint.next != End
    ensures Durable(fp, w.(checkpoint := AfterNode(fp, w.checkpoint, a)))
  {
    var c := AfterNode(fp, w.checkpoint, a);
    StepPreservesInv(fp, w.checkpoint.next, w.checkpoint.state, a);
    StepKeepsLink(fp, w.run, w.approvals, w.checkpoint, a);
    ExecutionsFollow(fp, w.checkpoint.state, c.state, w.executions, w.writes);
    NewCheckpoint(fp, w, c, w.control);
  }

  lemma StepControl(fp: Fingerprinter, w: World, a: Answer)
    requires ControlOk(fp, w) && w.control.Advancing? && w.control.resume.None?
    ensures ControlOk(fp, w.(checkpoint := AfterNode(fp, w.checkpoint, a)))
  {
  }

  lemma AdvanceSteps(fp: Fingerprinter, w: World, a: Answer)
    requires Inv(fp, w) && w.control.Advancing? && w.control.resume.None?
    requires w.checkpoint.interrupt.None?
    requires w.checkpoint.next != Request && w.checkpoint.next != Execute && w.checkpoint.next != End
    ensures Inv(fp, AdvanceStep(fp, w, w.control.caller, w.control.resume, a))
  {
    AdvancingIsOpen(fp, w);
    StepKeepsDurable(fp, w, a);
    StepControl(fp, w, a);
    PlainStep(fp, w, a);
  }

  lemma PlainStep(fp: Fingerprinter, w: World, a: Answer)
    requires w.control.Advancing? && w.control.resume.None? && w.checkpoint.interrupt.None?
    requires w.checkpoint.next != Request && w.checkpoint.next != Execute && w.checkpoint.next != End
    requires w.checkpoint.next != Fault
    ensures var (t, next) := Step(fp, w.checkpoint.next, w.checkpoint.state, a);
            AdvanceStep(fp, w, w.control.caller, w.control.resume, a) == w.(checkpoint := Checkpoint(t, next, None))
  {
  }

  lemma AdvanceKeepsInv(fp: Fingerprinter, w: World, a: Answer)
    requires Inv(fp, w) && w.control.Advancing?
    ensures Inv(fp, AdvanceStep(fp, w, w.control.caller, w.control.resume, a))
  {
    if w.control.resume.Some? {
      AdvanceResumes(fp, w, a);
    } else if w.checkpoint.interrupt.Some? || w.checkpoint.next == End {
      AdvanceLeaves(fp, w, a);
    } else if w.checkpoint.next == Request {
      AdvanceAsks(fp, w, a);
    } else if w.checkpoint.next == Execute {
      AdvanceExecutes(fp, w, a);
    } else {
      AdvanceSteps(fp, w, a);
    }
  }

  // ---------------------------------------------------------- execution node

  lemma BackedStays(fp: Fingerprinter, s: GraphState, records: seq<Record>,
                    rows: map<Identity, Row>, after: map<Identity, Row>, id: Identity)
    requires Backed(fp, s, records, rows) && OnlyRow(rows, after, id)
    ensures Backed(fp, s, records, after)
  {
  }

  /** A commit under the identity of one of the approved actions keeps the durable stores. */
  lemma RowCommitKeepsDurable(fp: Fingerprinter, w: World, action: Action,
                              rows: map<Identity, Row>, writes: multiset<Identity>, k: Control)
    requires Durable(fp, w) && Authorized(fp, w.checkpoint.state)
    requires action in w.checkpoint.state.proposal.value.actions
    requires Ledger(rows, writes)
    requires OnlyRow(w.executions, rows, IdentityOf(fp, w.checkpoint.state, action))
    ensures Durable(fp, w.(executions := rows, writes := writes, control := k))
  {
    var s := w.checkpoint.state;
    var id := IdentityOf(fp, s, action);
    assert id in ApprovedIds(fp, s);
    BackedStays(fp, s, s.records, w.executions, rows, id);
  }

  /** Saving the records of the execution node keeps the checkpoint in order. */
  lemma RecordsKeepCheckpoint(fp: Fingerprinter, s: GraphState, records: seq<Record>)
    requires GraphInv(fp, Execute, s) && ExecutedShape(s.proposal.value.actions, records)
    ensures CheckpointOk(fp, Checkpoint(FinishExecution(s, records), Verify, None))
  {
  }

  lemma RecordsKeepLink(run: Option<RunRow>, approvals: map<nat, Approval>, c: Checkpoint, records: seq<Record>)
    requires Linked(run, approvals, c) && c.next == Execute && c.interrupt.None?
    requires run.Some? && !run.value.status.Ended?
    ensures Linked(run, approvals, Checkpoint(FinishExecution(c.state, records), Verify, None))
  {
  }

  lemma RecordsKeepExecutions(fp: Fingerprinter, s: GraphState, records: seq<Record>,
                              rows: map<Identity, Row>, writes: multiset<Identity>)
    requires ExecutionsOk(fp, s, rows, writes) && Backed(fp, s, records, rows)
    ensures ExecutionsOk(fp, FinishExecution(s, records), rows, writes)
  {
    assert ApprovedIds(fp, FinishExecution(s, records)) == ApprovedIds(fp, s);
  }

  lemma FinishedShape(fp: Fingerprinter, w: World)
    requires w.control.Executing? && ExecutingOk(fp, w)
    requires w.control.phase == Stopped
          || w.control.index >= |w.checkpoint.state.proposal.value.actions|
    ensures ExecutedShape(w.checkpoint.state.proposal.value.actions, w.control.records)
  {
    var actions := w.checkpoint.state.proposal.value.actions;
    if w.control.phase != Stopped {
      assert actions[..w.control.index] == actions;
    }
  }

  /** The stores after the execution node saved its records. */
  lemma RecordsKeepDurable(fp: Fingerprinter, w: World, records: seq<Record>, k: Control)
    requires Durable(fp, w) && w.checkpoint.next == Execute && w.checkpoint.interrupt.None?
    requires w.run.Some? && !w.run.value.status.Ended?
    requires ExecutedShape(w.checkpoint.state.proposal.value.actions, records)
    requires Backed(fp, w.checkpoint.state, records, w.executions)
    ensures Durable(fp, w.(checkpoint := Checkpoint(FinishExecution(w.checkpoint.state, records), Verify, None),
                           control := k))
  {
    var s := w.checkpoint.state;
    RecordsKeepCheckpoint(fp, s, records);
    RecordsKeepLink(w.run, w.approvals, w.checkpoint, records);
    RecordsKeepExecutions(fp, s, records, w.executions, w.writes);
    NewCheckpoint(fp, w, Checkpoint(FinishExecution(s, records), Verify, None), k);
  }

  lemma ExecuteFinishes(fp: Fingerprinter, w: World, a: Reply)
    requires Inv(fp, w) && w.control.Executing?
    requires w.control.phase == Stopped
          || w.control.index >= |w.checkpoint.state.proposal.value.actions|
    ensures Inv(fp, ExecuteStep(fp, w, a))
  {
    FinishedShape(fp, w);
    RecordsKeepDurable(fp, w, w.control.records, Advancing(w.control.caller, None));
    SavedControl(fp, w, Checkpoint(FinishExecution(w.checkpoint.state, w.control.records), Verify, None));
    ExecutionEnds(fp, w, a);
  }

  lemma SavedControl(fp: Fingerprinter, w: World, c: Checkpoint)
    requires w.control.Executing? && ExecutingOk(fp, w) && c.interrupt.None?
    ensures ControlOk(fp, w.(checkpoint := c, control := Advancing(w.control.caller, None)))
  {
  }

  lemma ExecutionEnds(fp: Fingerprinter, w: World, a: Reply)
    requires w.control.Executing? && w.checkpoint.state.proposal.Some?
    requires w.control.phase == Stopped
          || w.control.index >= |w.checkpoint.state.proposal.value.actions|
    ensures ExecuteStep(fp, w, a)
         == w.(checkpoint := Checkpoint(FinishExecution(w.checkpoint.state, w.control.records), Verify, None),
               control := Advancing(w.control.caller, None))
  {
  }

  /** Appending the record of the current action to the successes before it. */
  lemma AppendRecord(actions: seq<Action>, index: nat, records: seq<Record>, outcome: Outcome)
    requires index < |actions| && AllSucceeded(actions[..index], records)
    ensures var after := records + [RecordOf(actions[index], outcome)];
            if outcome.Succeeded? then AllSucceeded(actions[..index + 1], after)
            else StoppedAtFailure(actions, after)
  {
  }

  /** The action in hand: the node is executing, and this is its current action and identity. */
  ghost predicate InHand(fp: Fingerprinter, w: World, action: Action, id: Identity) {
    && w.control.Executing? && w.control.phase != Stopped
    && w.checkpoint.state.proposal.Some?
    && w.control.index < |w.checkpoint.state.proposal.value.actions|
    && action == w.checkpoint.state.proposal.value.actions[w.control.index]
    && id == IdentityOf(fp, w.checkpoint.state, action)
  }

  /** After a commit that changed only the row in hand, the records so far are still backed, and
      the control state is in order if its new record and phase are. */
  lemma InHandControl(fp: Fingerprinter, w: World, action: Action, id: Identity, v: World)
    requires ControlOk(fp, w) && InHand(fp, w, action, id)
    requires v.control.Executing? && v.control.caller == w.control.caller
    requires v == w.(executions := v.executions, writes := v.writes, control := v.control)
    requires OnlyRow(w.executions, v.executions, id)
    requires || (&& v.control == w.control.(phase := v.control.phase) && v.control.phase != Stopped
                 && PhaseOk(v, id, action.tool, v.control.phase))
             || (exists e :: v.control == StoppedBy(w, action, e).control)
             || (exists r :: v.control == Pushed(w, action, r).control
                             && id in v.executions && v.executions[id].status == Completed)
    ensures ControlOk(fp, v)
  {
    var s, k := w.checkpoint.state, w.control;
    BackedStays(fp, s, k.records, w.executions, v.executions, id);
    if v.control.records != k.records {
      var record := v.control.records[|k.records|];
      assert v.control.records == k.records + [record];
      AppendRecord(s.proposal.value.actions, k.index, k.records, record.outcome);
    }
  }

  lemma ClaimPhaseKeepsInv(fp: Fingerprinter, w: World, action: Action, id: Identity, a: Reply)
    requires Inv(fp, w) && InHand(fp, w, action, id) && w.control.phase == Ready
    ensures Inv(fp, ClaimPhase(w, action, id, a))
  {
    var v := ClaimPhase(w, action, id, a);
    ClaimRows(w, action, id, a);
    ClaimControl(w, action, id, a);
    RowCommitKeepsDurable(fp, w, action, v.executions, w.writes, v.control);
    InHandControl(fp, w, action, id, v);
  }

  lemma ClaimShape(w: World, action: Action, id: Identity, a: Reply)
    requires w.control.Executing?
    ensures var v := ClaimPhase(w, action, id, a);
            && v == w.(executions := v.executions, control := v.control)
            && (v.executions == w.executions
                || v.executions == ClaimStep(w.executions, id, action.tool, PersistedApproval(w.approvals, id),
                                             a.tool.now, a.tool.claim).0)
  {
  }

  /** What the claim phase does to the rows. */
  lemma ClaimRows(w: World, action: Action, id: Identity, a: Reply)
    requires w.control.Executing? && Ledger(w.executions, w.writes)
    ensures var v := ClaimPhase(w, action, id, a);
            && v == w.(executions := v.executions, control := v.control)
            && Ledger(v.executions, v.writes) && OnlyRow(w.executions, v.executions, id)
  {
    ClaimShape(w, action, id, a);
    ClaimKeepsLedger(w.executions, w.writes, id, action.tool, PersistedApproval(w.approvals, id),
                     a.tool.now, a.tool.claim);
  }

  /** What the claim phase does to the control state: claimed, stopped, or replayed. */
  lemma ClaimControl(w: World, action: Action, id: Identity, a: Reply)
    requires w.control.Executing? && w.control.phase == Ready && Ledger(w.executions, w.writes)
    ensures var v := ClaimPhase(w, action, id, a);
            && v.control.Executing? && v.control.caller == w.control.caller
            && (|| (&& v.control == w.control.(phase := ActionClaimed)
                    && Claimed(v.executions, v.writes, id, action.tool))
                || (exists e :: v.control == StoppedBy(w, action, e).control)
                || (exists r :: v.control == Pushed(w, action, r).control
                                && id in v.executions && v.executions[id].status == Completed))
  {
    var v := ClaimPhase(w, action, id, a);
    ClaimKeepsLedger(w.executions, w.writes, id, action.tool, PersistedApproval(w.approvals, id),
                     a.tool.now, a.tool.claim);
    if v.control.phase == Stopped {
      assert v.control == StoppedBy(w, action, OtherError).control;
    } else if v.control.phase == Ready {
      assert v.control == Pushed(w, action, LoadPublicResult(w.executions[id], a.tool.loaded).value).control;
    }
  }

  /** What the dispatch does to the writes and to the control state. */
  lemma DispatchShape(w: World, action: Action, id: Identity, d: Dispatch)
    requires w.control.Executing? && Ledger(w.executions, w.writes)
    requires Claimed(w.executions, w.writes, id, action.tool)
    ensures var v := DispatchPhase(w, action, id, d);
            && v == w.(writes := v.writes, control := v.control)
            && Ledger(v.executions, v.writes)
            && v.control == w.control.(phase := v.control.phase) && v.control.phase != Stopped
            && PhaseOk(v, id, action.tool, v.control.phase)
  {
    DispatchKeepsLedger(w.executions, w.writes, id, action.tool, d);
  }

  lemma DispatchPhaseKeepsInv(fp: Fingerprinter, w: World, action: Action, id: Identity, d: Dispatch)
    requires Inv(fp, w) && InHand(fp, w, action, id) && w.control.phase == ActionClaimed
    ensures Inv(fp, DispatchPhase(w, action, id, d))
  {
    var v := DispatchPhase(w, action, id, d);
    DispatchShape(w, action, id, d);
    RowCommitKeepsDurable(fp, w, action, w.executions, v.writes, v.control);
    InHandControl(fp, w, action, id, v);
  }

  lemma CompletionPhaseKeepsInv(fp: Fingerprinter, w: World, action: Action, id: Identity, result: ToolResult, a: Reply)
    requires Inv(fp, w) && InHand(fp, w, action, id) && w.control.phase == ActionWritten(result)
    ensures Inv(fp, CompletionPhase(w, action, id, result, a))
  {
    var v := CompletionPhase(w, action, id, result, a);
    CompletionShape(w, action, id, result, a);
    RowCommitKeepsDurable(fp, w, action, v.executions, w.writes, v.control);
    InHandControl(fp, w, action, id, v);
  }

  /** What the completion phase does to the rows and to the control state. */
  lemma CompletionShape(w: World, action: Action, id: Identity, result: ToolResult, a: Reply)
    requires w.control.Executing? && Ledger(w.executions, w.writes)
    requires Performed(w.executions, w.writes, id, action.tool)
    ensures var v := CompletionPhase(w, action, id, result, a);
            && v == w.(executions := v.executions, control := v.control)
            && v.control.Executing? && v.control.caller == w.control.caller
            && Ledger(v.executions, v.writes)
            && OnlyRow(w.executions, v.executions, id)
            && (|| v.control == w.control.(phase := ActionFailing(OtherError))
                || (&& v.control == Pushed(w, action, result).control
                    && id in v.executions && v.executions[id].status == Completed))
  {
    CompletionKeepsLedger(w.executions, w.writes, id, action.tool, result, a.tool.now, a.tool.completion);
    var v := CompletionPhase(w, action, id, result, a);
    assert id in v.executions;
  }

  lemma FailurePhaseKeepsInv(fp: Fingerprinter, w: World, action: Action, id: Identity, e: DomainError, a: Reply)
    requires Inv(fp, w) && InHand(fp, w, action, id) && w.control.phase == ActionFailing(e)
    ensures Inv(fp, FailurePhase(w, action, id, e, a))
  {
    var v := FailurePhase(w, action, id, e, a);
    FailureKeepsLedger(w.executions, w.writes, id, e, a.tool.now, a.tool.failure);
    assert OnlyRow(w.executions, v.executions, id);
    RowCommitKeepsDurable(fp, w, action, v.executions, w.writes, v.control);
    assert v.control == StoppedBy(w, action, ReportedError(w.executions, id, e, a.tool.failure)).control;
    InHandControl(fp, w, action, id, v);
  }

  lemma ExecuteKeepsInv(fp: Fingerprinter, w: World, a: Reply)
    requires Inv(fp, w) && w.control.Executing?
    ensures Inv(fp, ExecuteStep(fp, w, a))
  {
    var s, k := w.checkpoint.state, w.control;
    var actions := s.proposal.value.actions;
    if k.phase == Stopped || k.index >= |actions| {
      ExecuteFinishes(fp, w, a);
    } else {
      var action := actions[k.index];
      var id := IdentityOf(fp, s, action);
      match k.phase {
        case Ready => ClaimPhaseKeepsInv(fp, w, action, id, a);
        case ActionClaimed => DispatchPhaseKeepsInv(fp, w, action, id, a.tool.dispatch);
        case ActionWritten(result) => CompletionPhaseKeepsInv(fp, w, action, id, result, a);
        case ActionFailing(e) => FailurePhaseKeepsInv(fp, w, action, id, e, a);
      }
    }
  }

  // ----------------------------------------------------------- whole histories

  lemma ApplyKeepsInv(fp: Fingerprinter, w: World, e: Event)
    requires Inv(fp, w)
    ensures Inv(fp, Apply(fp, w, e))
  {
    match e {
      case Begin(sub) => BeginKeepsInv(fp, w, sub);
      case Crash => ControlIsVolatile(fp, w, Idle);
      case Tick(a) =>
        match w.control {
          case Idle =>
          case Inspecting(_) => InspectKeepsInv(fp, w);
          case Advancing(_, _) => AdvanceKeepsInv(fp, w, a.node);
          case Executing(_, _, _, _) => ExecuteKeepsInv(fp, w, a);
          case Persisting(_, _) => PersistKeepsInv(fp, w);
        }
    }
  }

  /** The invariant holds in every world that any history leads to. */
  lemma {:induction false} HistoryKeepsInv(fp: Fingerprinter, w: World, events: seq<Event>)
    requires Inv(fp, w)
    ensures Inv(fp, Run(fp, w, events))
    decreases |events|
  {
    if events != [] {
      ApplyKeepsInv(fp, w, events[0]);
      HistoryKeepsInv(fp, Apply(fp, w, events[0]), events[1..]);
    }
  }

  lemma ReachableInv(fp: Fingerprinter, w: World)
    requires Reachable(fp, w)
    ensures Inv(fp, w)
  {
    InitiallyInv(fp);
    var events :| Run(fp, INITIAL_WORLD, events) == w;
    HistoryKeepsInv(fp, INITIAL_WORLD, events);
  }
}
