/** What a decision leads to when nothing goes wrong: an approved plan is carried out and its run
    succeeds, and a rejected one ends rejected with nothing done. */
module ApprovalOutcomes {
  import opened Options
  import opened RunMetrics
  import opened AgentState
  import opened AgentNodes
  import opened AgentGraph
  import opened ToolExecutions
  import opened ApprovalProtocol
  import opened ApprovalInvariant
  import opened ApprovalTheorems
  import opened ApprovalRecovery

  /** The outside does its part in this step: no node raises, plans are accepted, commits are
      acknowledged, and a domain call returns a result of its tool's kind. */
  predicate Helpful(w: World, a: Reply) {
    && a.node.ok && a.node.planAccepted && a.tool.claim == Committed && a.tool.completion == Committed
    && (w.control.Executing? && w.control.phase == ActionClaimed && w.checkpoint.state.proposal.Some?
        && w.control.index < |w.checkpoint.state.proposal.value.actions| ==>
          ReturnsFitting(w.checkpoint.state.proposal.value.actions[w.control.index].tool, a.tool))
  }

  /** It does so in every step until the lock is released. */
  ghost predicate Helped(fp: Fingerprinter, w: World, env: nat -> Reply, k: nat)
    decreases StepsLeft(w)
  {
    w.control == Idle
    || (&& Helpful(w, env(k))
        && (TickMakesProgress(fp, w, env(k));
            Helped(fp, TickStep(fp, w, env(k)), env, k + 1)))
  }

  /** Points the verifier at one answered step. */
  predicate Stepped(w: World, a: Reply) {
    true
  }

  /** What every helpful step keeps until the lock is released, and then leaves, holds at the end. */
  lemma {:induction false} HelpedInduction(fp: Fingerprinter, w: World, env: nat -> Reply, k: nat,
                                           busy: World -> bool, done: World -> bool)
    requires w.control != Idle && busy(w) && Helped(fp, w, env, k)
    requires forall v: World, a: Reply {:trigger Stepped(v, a)} ::
               Stepped(v, a) && v.control != Idle && busy(v) && Helpful(v, a) ==>
                 var u := TickStep(fp, v, a); if u.control == Idle then done(u) else busy(u)
    ensures done(Drive(fp, w, env, k))
    decreases StepsLeft(w)
  {
    var v := TickStep(fp, w, env(k));
    DriveUnfolds(fp, w, env, k);
    assert Stepped(w, env(k));
    TickMakesProgress(fp, w, env(k));
    if v.control != Idle {
      HelpedInduction(fp, v, env, k + 1, busy, done);
    }
  }

  // --------------------------------------------------------------- towards success

  /** The approved actions from the one in hand on have no row yet. */
  ghost predicate RowsAhead(fp: Fingerprinter, w: World)
    requires w.control.Executing? && w.checkpoint.state.proposal.Some?
  {
    var s, k := w.checkpoint.state, w.control;
    forall j :: k.index <= j < |s.proposal.value.actions| && (j > k.index || k.phase == Ready) ==>
      IdentityOf(fp, s, s.proposal.value.actions[j]) !in w.executions
  }

  predicate AdvancesTo(fp: Fingerprinter, c: Checkpoint, how: TerminalStatus) {
    match c.next
    case Verify => VerifyResult(fp, c.state).1 == how
    case Finish => c.state.terminal == Some(how)
    case End => c.state.terminal == Some(how)
    case _ => false
  }

  /** The decision that leads to this outcome on a plan of this revision. */
  predicate LeadsTo(d: Decision, revision: nat, how: TerminalStatus) {
    Effective(d, revision) == (if how == RunSucceeded then Approved else Rejected)
  }

  /** The work is on its way to success, or to the end of a rejected run. */
  ghost predicate OnTheWay(fp: Fingerprinter, w: World, how: TerminalStatus) {
    && (how == RunSucceeded || how == RunRejected)
    && match w.control
       case Idle => false
       case Inspecting(_) => false
       case Advancing(caller, resume) =>
         && caller.Submit?
         && if resume.Some? then
              && w.checkpoint.next == Request && w.executions == map[]
              && LeadsTo(resume.value.decision, w.checkpoint.state.revisionCount, how)
            else
              && w.checkpoint.interrupt.None?
              && if w.checkpoint.next == Execute then how == RunSucceeded && w.executions == map[]
                 else AdvancesTo(fp, w.checkpoint, how)
       case Executing(caller, _, _, phase) =>
         && how == RunSucceeded && caller.Submit? && w.checkpoint.state.proposal.Some?
         && phase != Stopped && !phase.ActionFailing? && RowsAhead(fp, w)
       case Persisting(caller, p) => caller.Submit? && p.Finished? && p.output.status == how
  }

  lemma DecisionGoesOn(fp: Fingerprinter, w: World, a: Answer, how: TerminalStatus)
    requires CheckpointOk(fp, w.checkpoint) && w.control.Advancing? && OnTheWay(fp, w, how) && a.ok
    requires w.control.resume.Some?
    ensures OnTheWay(fp, AdvanceStep(fp, w, w.control.caller, w.control.resume, a), how)
  {
  }

  lemma ExecutionGoesOn(fp: Fingerprinter, w: World, a: Answer, how: TerminalStatus)
    requires CheckpointOk(fp, w.checkpoint) && w.control.Advancing? && OnTheWay(fp, w, how) && a.ok
    requires w.control.resume.None? && w.checkpoint.next == Execute
    ensures OnTheWay(fp, AdvanceStep(fp, w, w.control.caller, w.control.resume, a), how)
  {
  }

  lemma EndingGoesOn(fp: Fingerprinter, w: World, a: Answer, how: TerminalStatus)
    requires CheckpointOk(fp, w.checkpoint) && w.control.Advancing? && OnTheWay(fp, w, how)
    requires w.control.resume.None? && w.checkpoint.next != Execute
    ensures OnTheWay(fp, AdvanceStep(fp, w, w.control.caller, w.control.resume, a), how)
  {
    if w.checkpoint.next != Verify {
      SummarizeNeverRejects(fp, w.checkpoint.state);
    }
  }

  lemma OtherIds(fp: Fingerprinter, s: GraphState, i: nat, j: nat)
    requires s.proposal.Some? && i < j < |s.proposal.value.actions|
    ensures IdentityOf(fp, s, s.proposal.value.actions[i]) != IdentityOf(fp, s, s.proposal.value.actions[j])
  {
  }

  lemma ClaimGoesOn(fp: Fingerprinter, w: World, a: Reply, action: Action, id: Identity,
                      how: TerminalStatus)
    requires InHand(fp, w, action, id) && OnTheWay(fp, w, how) && w.control.phase == Ready && Helpful(w, a)
    requires PersistedApproval(w.approvals, id)
    ensures OnTheWay(fp, ClaimPhase(w, action, id, a), how)
  {
    var s, v := w.checkpoint.state, ClaimPhase(w, action, id, a);
    assert id !in w.executions;
    assert v.control == w.control.(phase := ActionClaimed);
    forall j | w.control.index < j < |s.proposal.value.actions|
      ensures IdentityOf(fp, s, s.proposal.value.actions[j]) !in v.executions
    {
      OtherIds(fp, s, w.control.index, j);
    }
  }

  lemma DispatchGoesOn(fp: Fingerprinter, w: World, a: Reply, action: Action, id: Identity,
                      how: TerminalStatus)
    requires InHand(fp, w, action, id) && OnTheWay(fp, w, how) && w.control.phase == ActionClaimed && Helpful(w, a)
    ensures OnTheWay(fp, DispatchPhase(w, action, id, a.tool.dispatch), how)
  {
  }

  lemma CompletionGoesOn(fp: Fingerprinter, w: World, a: Reply, action: Action, id: Identity,
                      how: TerminalStatus)
    requires InHand(fp, w, action, id) && OnTheWay(fp, w, how) && w.control.phase.ActionWritten? && Helpful(w, a)
    requires id in w.executions && w.executions[id].status == InProgress
    ensures OnTheWay(fp, CompletionPhase(w, action, id, w.control.phase.result, a), how)
  {
    var s, v := w.checkpoint.state, CompletionPhase(w, action, id, w.control.phase.result, a);
    assert v.control == Pushed(w, action, w.control.phase.result).control;
    forall j | w.control.index < j < |s.proposal.value.actions|
      ensures IdentityOf(fp, s, s.proposal.value.actions[j]) !in v.executions
    {
      OtherIds(fp, s, w.control.index, j);
    }
  }

  lemma RecordsGoOn(fp: Fingerprinter, w: World, a: Reply, how: TerminalStatus)
    requires Inv(fp, w) && w.control.Executing? && OnTheWay(fp, w, how)
    requires w.control.index >= |w.checkpoint.state.proposal.value.actions|
    ensures OnTheWay(fp, ExecuteStep(fp, w, a), how)
  {
    ExecutionEnds(fp, w, a);
    var actions := w.checkpoint.state.proposal.value.actions;
    assert actions[..w.control.index] == actions;
    SucceededExactly(fp, FinishExecution(w.checkpoint.state, w.control.records));
  }

  /** The approval that the claim looks up is there. */
  lemma ApprovalIsThere(fp: Fingerprinter, w: World, action: Action)
    requires Inv(fp, w) && w.control.Executing?
    ensures PersistedApproval(w.approvals, IdentityOf(fp, w.checkpoint.state, action))
  {
    ApprovedStateIsCommitted(fp, w);
  }

  lemma ExecuteGoesOn(fp: Fingerprinter, w: World, a: Reply, how: TerminalStatus)
    requires Inv(fp, w) && w.control.Executing? && OnTheWay(fp, w, how) && Helpful(w, a)
    ensures OnTheWay(fp, ExecuteStep(fp, w, a), how)
  {
    var s, k := w.checkpoint.state, w.control;
    if k.index >= |s.proposal.value.actions| {
      RecordsGoOn(fp, w, a, how);
    } else {
      var action := s.proposal.value.actions[k.index];
      var id := IdentityOf(fp, s, action);
      match k.phase {
        case Ready =>
          ApprovalIsThere(fp, w, action);
          ClaimGoesOn(fp, w, a, action, id, how);
        case ActionClaimed => DispatchGoesOn(fp, w, a, action, id, how);
        case ActionWritten(_) => CompletionGoesOn(fp, w, a, action, id, how);
      }
    }
  }

  /** The run is stored with this outcome, unless the table refuses its counters. */
  ghost predicate EndsAs(fp: Fingerprinter, w: World, how: TerminalStatus) {
    CountersPass(fp, w.checkpoint) ==>
      w.run.Some? && w.run.value.status == Ended(how) && OutcomeIsTrue(fp, w, how)
  }

  lemma OutcomeIsStored(fp: Fingerprinter, w: World, how: TerminalStatus)
    requires Inv(fp, w) && w.control.Persisting? && OnTheWay(fp, w, how)
    ensures EndsAs(fp, PersistStep(w, w.control.progress), how)
  {
    var v := PersistStep(w, w.control.progress);
    PersistKeepsInv(fp, w);
    if CountersPass(fp, v.checkpoint) {
      CommitsExactly(fp, w);
      FinishedOutcomeIsTrue(fp, v);
    }
  }

  lemma AdvanceGoesOnWay(fp: Fingerprinter, w: World, a: Answer, how: TerminalStatus)
    requires CheckpointOk(fp, w.checkpoint) && w.control.Advancing? && OnTheWay(fp, w, how) && a.ok
    ensures OnTheWay(fp, AdvanceStep(fp, w, w.control.caller, w.control.resume, a), how)
  {
    if w.control.resume.Some? {
      DecisionGoesOn(fp, w, a, how);
    } else if w.checkpoint.next == Execute {
      ExecutionGoesOn(fp, w, a, how);
    } else {
      EndingGoesOn(fp, w, a, how);
    }
  }

  lemma StepGoesOn(fp: Fingerprinter, w: World, a: Reply, how: TerminalStatus)
    requires Inv(fp, w) && OnTheWay(fp, w, how) && Helpful(w, a)
    ensures var v := TickStep(fp, w, a); if w.control.Persisting? then EndsAs(fp, v, how) else OnTheWay(fp, v, how)
  {
    match w.control {
      case Advancing(_, _) => AdvanceGoesOnWay(fp, w, a.node, how);
      case Executing(_, _, _, _) => ExecuteGoesOn(fp, w, a, how);
      case Persisting(_, _) => OutcomeIsStored(fp, w, how);
    }
  }

  lemma TickGoesOn(fp: Fingerprinter, w: World, a: Reply, how: TerminalStatus)
    requires Inv(fp, w) && OnTheWay(fp, w, how) && Helpful(w, a)
    ensures var v := TickStep(fp, w, a);
            if v.control == Idle then EndsAs(fp, v, how) else Inv(fp, v) && OnTheWay(fp, v, how)
  {
    ApplyKeepsInv(fp, w, Tick(a));
    StepGoesOn(fp, w, a, how);
    if w.control.Persisting? {
      CommitReleases(w);
    }
  }

  lemma CommitReleases(w: World)
    requires w.control.Persisting?
    ensures PersistStep(w, w.control.progress).control == Idle
  {
  }

  lemma WayEndsWell(fp: Fingerprinter, w: World, env: nat -> Reply, k: nat, how: TerminalStatus)
    requires Inv(fp, w) && OnTheWay(fp, w, how) && Helped(fp, w, env, k)
    ensures EndsAs(fp, Drive(fp, w, env, k), how)
  {
    var busy := (v: World) => Inv(fp, v) && OnTheWay(fp, v, how);
    var done := (v: World) => EndsAs(fp, v, how);
    forall v: World, a: Reply {:trigger Stepped(v, a)} | v.control != Idle && busy(v) && Helpful(v, a)
      ensures var u := TickStep(fp, v, a); if u.control == Idle then done(u) else busy(u)
    {
      TickGoesOn(fp, v, a, how);
    }
    HelpedInduction(fp, w, env, k, busy, done);
  }

  /** The submission decides the plan that the checkpoint shows. */
  predicate Decides(w: World, sub: Submission) {
    Accepted(w, sub) && w.checkpoint.interrupt == Some(Interrupt(sub.revision, sub.fingerprint))
  }

  lemma DecisionStarts(fp: Fingerprinter, w: World, sub: Submission, how: TerminalStatus)
    requires Inv(fp, w) && w.control == Idle && Decides(w, sub)
    requires (how == RunSucceeded || how == RunRejected) && LeadsTo(sub.decision, sub.revision, how)
    ensures var v := BeginSubmission(w, sub);
            && Inv(fp, v) && v.control == Inspecting(sub.revision) && v.checkpoint == w.checkpoint
            && var u := InspectStep(fp, v, sub.revision); Inv(fp, u) && OnTheWay(fp, u, how)
  {
    AcceptedBegins(fp, w, sub);
    BeginKeepsInv(fp, w, sub);
    var v := BeginSubmission(w, sub);
    InspectKeepsInv(fp, v);
    NothingExecutedYet(fp, v);
    DecisionResumes(fp, v, sub, how);
  }

  lemma NothingExecutedYet(fp: Fingerprinter, w: World)
    requires Durable(fp, w) && w.checkpoint.interrupt.Some?
    ensures w.executions == map[]
  {
    assert ApprovedIds(fp, w.checkpoint.state) == {};
    assert w.executions.Keys == {};
  }

  lemma DecisionResumes(fp: Fingerprinter, w: World, sub: Submission, how: TerminalStatus)
    requires Inv(fp, w) && w.control == Inspecting(sub.revision) && w.executions == map[]
    requires sub.revision == |w.approvals| - 1 && SameSubmission(w.approvals[sub.revision], sub)
    requires w.checkpoint.interrupt == Some(Interrupt(sub.revision, sub.fingerprint))
    requires (how == RunSucceeded || how == RunRejected) && LeadsTo(sub.decision, sub.revision, how)
    ensures OnTheWay(fp, InspectStep(fp, w, sub.revision), how)
  {
    OpenIsRunning(fp, w);
  }

  /** A decided plan comes to its outcome: if nothing goes wrong, the submission that approves the
      shown plan ends with a succeeded run whose actions are all written, each once, and the one that
      rejects it, or asks for changes once too often, with a rejected run and nothing written. */
  lemma DecidedPlanEnds(fp: Fingerprinter, w: World, sub: Submission, env: nat -> Reply, how: TerminalStatus)
    requires Inv(fp, w) && w.control == Idle && Decides(w, sub)
    requires (how == RunSucceeded || how == RunRejected) && LeadsTo(sub.decision, sub.revision, how)
    requires Helped(fp, BeginSubmission(w, sub), env, 0)
    ensures EndsAs(fp, Drive(fp, BeginSubmission(w, sub), env, 0), how)
  {
    DecisionStarts(fp, w, sub, how);
    var v := BeginSubmission(w, sub);
    DriveInspects(fp, v, env);
    WayEndsWell(fp, InspectStep(fp, v, sub.revision), env, 1, how);
  }

  // --------------------------------------------------------------- towards a new plan

  /** The work is on its way to the approval of this revision. */
  predicate Replanning(w: World, revision: nat) {
    match w.control
    case Idle => false
    case Inspecting(_) => false
    case Executing(_, _, _, _) => false
    case Advancing(caller, resume) =>
      && caller.Submit?
      && if resume.Some? then
           && w.checkpoint.next == Request && w.checkpoint.state.revisionCount + 1 == revision
           && Effective(resume.value.decision, w.checkpoint.state.revisionCount) == RequestChanges
         else
           && w.checkpoint.state.revisionCount == revision
           && (w.checkpoint.next == Generate || w.checkpoint.next == Validate || w.checkpoint.next == Request)
    case Persisting(caller, p) => caller.Submit? && p.AtApproval? && p.interrupt.revision == revision
  }

  /** The new plan waits for its decision: the run, the row and the checkpoint say so. */
  predicate AwaitsDecision(w: World, revision: nat) {
    && w.run.Some? && w.run.value.status == PendingApproval
    && revision in w.approvals && w.approvals[revision].decision.None?
    && w.checkpoint.interrupt == Some(Interrupt(revision, w.approvals[revision].fingerprint))
  }

  lemma ReplanningGoesOn(fp: Fingerprinter, w: World, a: Answer, revision: nat)
    requires CheckpointOk(fp, w.checkpoint) && w.control.Advancing? && Replanning(w, revision)
    requires a.ok && a.planAccepted
    ensures Replanning(AdvanceStep(fp, w, w.control.caller, w.control.resume, a), revision)
  {
  }

  lemma NewPlanIsStored(fp: Fingerprinter, w: World, revision: nat)
    requires Inv(fp, w) && w.control.Persisting? && UnderWay(w) && Replanning(w, revision)
    ensures AwaitsDecision(PersistStep(w, w.control.progress), revision)
  {
    CommitsExactly(fp, w);
  }

  lemma ReplanningTick(fp: Fingerprinter, w: World, a: Reply, revision: nat)
    requires Inv(fp, w) && UnderWay(w) && Replanning(w, revision) && Helpful(w, a)
    ensures var v := TickStep(fp, w, a);
            if v.control == Idle then AwaitsDecision(v, revision)
            else Inv(fp, v) && UnderWay(v) && Replanning(v, revision)
  {
    UnderWayTick(fp, w, a);
    match w.control {
      case Advancing(_, _) => ReplanningGoesOn(fp, w, a.node, revision);
      case Persisting(_, _) => NewPlanIsStored(fp, w, revision);
    }
  }

  lemma ReplanningEnds(fp: Fingerprinter, w: World, env: nat -> Reply, k: nat, revision: nat)
    requires Inv(fp, w) && UnderWay(w) && Replanning(w, revision) && Helped(fp, w, env, k)
    ensures AwaitsDecision(Drive(fp, w, env, k), revision)
  {
    var busy := (v: World) => Inv(fp, v) && UnderWay(v) && Replanning(v, revision);
    var done := (v: World) => AwaitsDecision(v, revision);
    forall v: World, a: Reply {:trigger Stepped(v, a)} | v.control != Idle && busy(v) && Helpful(v, a)
      ensures var u := TickStep(fp, v, a); if u.control == Idle then done(u) else busy(u)
    {
      ReplanningTick(fp, v, a, revision);
    }
    HelpedInduction(fp, w, env, k, busy, done);
  }

  lemma ChangesResume(fp: Fingerprinter, w: World, sub: Submission)
    requires Inv(fp, w) && w.control == Inspecting(sub.revision)
    requires sub.revision == |w.approvals| - 1 && SameSubmission(w.approvals[sub.revision], sub)
    requires w.checkpoint.interrupt == Some(Interrupt(sub.revision, sub.fingerprint))
    requires Effective(sub.decision, sub.revision) == RequestChanges
    ensures var u := InspectStep(fp, w, sub.revision); Replanning(u, sub.revision + 1) && UnderWay(u)
  {
    OpenIsRunning(fp, w);
  }

  lemma ChangesStart(fp: Fingerprinter, w: World, sub: Submission)
    requires Inv(fp, w) && w.control == Idle && Decides(w, sub)
    requires Effective(sub.decision, sub.revision) == RequestChanges
    ensures var v := BeginSubmission(w, sub);
            && Inv(fp, v) && v.control == Inspecting(sub.revision)
            && var u := InspectStep(fp, v, sub.revision);
               Inv(fp, u) && UnderWay(u) && Replanning(u, sub.revision + 1)
  {
    AcceptedBegins(fp, w, sub);
    BeginKeepsInv(fp, w, sub);
    var v := BeginSubmission(w, sub);
    InspectKeepsInv(fp, v);
    ChangesResume(fp, v, sub);
  }

  /** A change request comes to a new plan: if nothing goes wrong, its submission ends with the next
      revision waiting for its decision. */
  lemma ChangedPlanIsShown(fp: Fingerprinter, w: World, sub: Submission, env: nat -> Reply)
    requires Inv(fp, w) && w.control == Idle && Decides(w, sub)
    requires Effective(sub.decision, sub.revision) == RequestChanges
    requires Helped(fp, BeginSubmission(w, sub), env, 0)
    ensures AwaitsDecision(Drive(fp, BeginSubmission(w, sub), env, 0), sub.revision + 1)
  {
    ChangesStart(fp, w, sub);
    var v := BeginSubmission(w, sub);
    DriveInspects(fp, v, env);
    ReplanningEnds(fp, InspectStep(fp, v, sub.revision), env, 1, sub.revision + 1);
  }
}
