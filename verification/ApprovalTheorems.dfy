/** Safety of the approval protocol over every history of submissions, resends and crashes. */
module ApprovalTheorems {
  import opened Options
  import opened RunMetrics
  import opened AgentState
  import opened AgentNodes
  import opened AgentGraph
  import opened ToolExecutions
  import opened ApprovalProtocol
  import opened ApprovalInvariant

  /** The stores without the work in flight. */
  function Stored(w: World): World {
    w.(control := Idle)
  }

  // ------------------------------------------------------------------- writes

  /** Each action identity has at most one committed domain write, whatever is resent or lost. */
  lemma AtMostOnce(fp: Fingerprinter, w: World)
    requires Reachable(fp, w)
    ensures forall id :: w.writes[id] <= 1
  {
    ReachableInv(fp, w);
    forall id ensures w.writes[id] <= 1 {
      assert id in w.writes || w.writes[id] == 0;
    }
  }

  /** What the status of an execution row proves about its write. */
  lemma RowStatusIsTruthful(fp: Fingerprinter, w: World, id: Identity)
    requires Reachable(fp, w)
    ensures && (id in w.writes ==> id in w.executions)
            && (id in w.executions ==> RowShape(w.executions[id]))
            && (id in w.executions && w.executions[id].status == Completed ==> w.writes[id] == 1)
            && (id in w.executions && w.executions[id].status == FailedSafe ==> w.writes[id] == 0)
  {
    ReachableInv(fp, w);
  }

  lemma ApprovedStateIsCommitted(fp: Fingerprinter, w: World)
    requires Inv(fp, w) && w.checkpoint.state.decision == Some(Approved)
    ensures var s := w.checkpoint.state;
            && BoundApproval(fp, s)
            && s.revisionCount in w.approvals
            && w.approvals[s.revisionCount].decision == Some(Approved)
            && w.approvals[s.revisionCount].fingerprint == fp(s.proposal.value)
  {
  }

  /** Every domain write belongs to an approval row committed as approved, with the same revision
      and the same fingerprint; low-impact actions are covered as well. */
  lemma NoWriteWithoutDecision(fp: Fingerprinter, w: World, id: Identity)
    requires Reachable(fp, w) && id in w.writes
    ensures && id.revision in w.approvals
            && w.approvals[id.revision].decision == Some(Approved)
            && w.approvals[id.revision].fingerprint == id.fingerprint
  {
    ReachableInv(fp, w);
    assert id in ApprovedIds(fp, w.checkpoint.state);
    ApprovedStateIsCommitted(fp, w);
  }

  ghost predicate Injective(fp: Fingerprinter) {
    forall p: Proposal, q: Proposal :: fp(p) == fp(q) ==> p == q
  }

  /** When digests do not collide, every write is an action of the very proposal approved. */
  lemma WritesComeFromApprovedProposal(fp: Fingerprinter, w: World, id: Identity, p: Proposal)
    requires Injective(fp) && Reachable(fp, w)
    requires id in w.writes && id.revision in w.approvals
             && w.approvals[id.revision].fingerprint == fp(p)
    ensures exists action :: action in p.actions && action.key == id.key
  {
    NoWriteWithoutDecision(fp, w, id);
    ReachableInv(fp, w);
    var s := w.checkpoint.state;
    assert id in ApprovedIds(fp, s);
    ApprovedStateIsCommitted(fp, w);
    assert fp(s.proposal.value) == fp(p);
    assert s.proposal.value == p;
    var action :| action in p.actions && IdentityOf(fp, s, action) == id;
  }

  // --------------------------------------------------------------- submissions

  /** Some submission among the events said exactly this about this revision. */
  ghost predicate WasSubmitted(events: seq<Event>, revision: nat, a: Approval) {
    exists i :: 0 <= i < |events| && events[i].Begin? && events[i].submission.revision == revision
                && SameSubmission(a, events[i].submission)
  }

  /** The row is decided as it was before, or by this event. */
  ghost predicate DecidedBy(w: World, e: Event, revision: nat, a: Approval) {
    || (revision in w.approvals && w.approvals[revision] == a)
    || (e.Begin? && e.submission.revision == revision && SameSubmission(a, e.submission))
  }

  lemma TickDecidesNothing(fp: Fingerprinter, w: World, a: Reply, revision: nat)
    requires revision in TickStep(fp, w, a).approvals && TickStep(fp, w, a).approvals[revision].decision.Some?
    ensures revision in w.approvals && w.approvals[revision] == TickStep(fp, w, a).approvals[revision]
  {
    match w.control {
      case Advancing(_, _) => NodesLeaveRows(fp, w, a.node);
      case Executing(_, _, _, _) =>
        if w.checkpoint.state.proposal.Some? {
          ExecutionLeavesRows(fp, w, a);
        }
      case _ =>
    }
  }

  lemma StepDecides(fp: Fingerprinter, w: World, e: Event, revision: nat)
    requires revision in Apply(fp, w, e).approvals && Apply(fp, w, e).approvals[revision].decision.Some?
    ensures DecidedBy(w, e, revision, Apply(fp, w, e).approvals[revision])
  {
    if e.Tick? {
      TickDecidesNothing(fp, w, e.reply, revision);
    }
  }

  lemma SubmittedLater(first: Event, rest: seq<Event>, revision: nat, a: Approval)
    requires WasSubmitted(rest, revision, a)
    ensures WasSubmitted([first] + rest, revision, a)
  {
    var i :| 0 <= i < |rest| && rest[i].Begin? && rest[i].submission.revision == revision
             && SameSubmission(a, rest[i].submission);
    assert ([first] + rest)[i + 1] == rest[i];
  }

  lemma {:induction false} RowsWereSubmitted(fp: Fingerprinter, w: World, events: seq<Event>, revision: nat)
    requires revision in Run(fp, w, events).approvals && Run(fp, w, events).approvals[revision].decision.Some?
    ensures var a := Run(fp, w, events).approvals[revision];
            (revision in w.approvals && w.approvals[revision] == a) || WasSubmitted(events, revision, a)
    decreases |events|
  {
    if events != [] {
      var a := Run(fp, w, events).approvals[revision];
      RowsWereSubmitted(fp, Apply(fp, w, events[0]), events[1..], revision);
      assert events == [events[0]] + events[1..];
      if WasSubmitted(events[1..], revision, a) {
        SubmittedLater(events[0], events[1..], revision, a);
      } else {
        StepDecides(fp, w, events[0], revision);
        if !(revision in w.approvals && w.approvals[revision] == a) {
          assert events[0].submission.revision == revision;
        }
      }
    }
  }

  /** The stored decisions are the submitted ones: after every history each decided row has the
      decision, the feedback and the fingerprint of a submission on its revision. */
  lemma DecisionsWereSubmitted(fp: Fingerprinter, events: seq<Event>, revision: nat)
    requires var w := Run(fp, INITIAL_WORLD, events);
             revision in w.approvals && w.approvals[revision].decision.Some?
    ensures WasSubmitted(events, revision, Run(fp, INITIAL_WORLD, events).approvals[revision])
  {
    RowsWereSubmitted(fp, INITIAL_WORLD, events, revision);
  }

  /** Every domain write belongs to a submission that approved that revision and that fingerprint. */
  lemma WritesWereSubmitted(fp: Fingerprinter, events: seq<Event>, id: Identity)
    requires id in Run(fp, INITIAL_WORLD, events).writes
    ensures exists i :: 0 <= i < |events| && events[i].Begin?
              && events[i].submission.revision == id.revision
              && events[i].submission.fingerprint == id.fingerprint && events[i].submission.decision == Approved
  {
    NoWriteWithoutDecision(fp, Run(fp, INITIAL_WORLD, events), id);
    DecisionsWereSubmitted(fp, events, id.revision);
    var a := Run(fp, INITIAL_WORLD, events).approvals[id.revision];
    var i :| 0 <= i < |events| && events[i].Begin? && events[i].submission.revision == id.revision
             && SameSubmission(a, events[i].submission);
  }

  /** A change request reaches the planner: while its plan is made, the state carries the submitted text. */
  lemma FeedbackReachesPlanner(fp: Fingerprinter, events: seq<Event>)
    requires var w := Run(fp, INITIAL_WORLD, events);
             w.checkpoint.next == Generate && w.checkpoint.state.revisionCount > 0
    ensures var s := Run(fp, INITIAL_WORLD, events).checkpoint.state;
            exists i :: 0 <= i < |events| && events[i].Begin?
              && events[i].submission.revision == s.revisionCount - 1
              && events[i].submission.decision == RequestChanges && events[i].submission.feedback == s.feedback
  {
    var w := Run(fp, INITIAL_WORLD, events);
    ReachableInv(fp, w);
    var r := w.checkpoint.state.revisionCount - 1;
    PlanningFollowsRequest(fp, w);
    DecisionsWereSubmitted(fp, events, r);
    var i :| 0 <= i < |events| && events[i].Begin? && events[i].submission.revision == r
             && SameSubmission(w.approvals[r], events[i].submission);
  }

  lemma PlanningFollowsRequest(fp: Fingerprinter, w: World)
    requires Inv(fp, w) && w.checkpoint.next == Generate && w.checkpoint.state.revisionCount > 0
    ensures var r := w.checkpoint.state.revisionCount - 1;
            && r in w.approvals && w.approvals[r].decision == Some(RequestChanges)
            && w.checkpoint.state.feedback == w.approvals[r].feedback
  {
  }

  // ------------------------------------------------------------------ history

  /** Revisions are 0..k, all but the last ask for changes, and the run waits for approval
      exactly when the last one is pending. */
  lemma ApprovalHistory(fp: Fingerprinter, w: World)
    requires Reachable(fp, w)
    ensures var n := |w.approvals|;
            && n <= 3
            && (forall r: nat :: r in w.approvals <==> r < n)
            && (forall r: nat :: r < n - 1 ==> w.approvals[r].decision == Some(RequestChanges))
            && (w.run.Some? ==>
                  (w.run.value.status == PendingApproval <==>
                     n > 0 && w.approvals[n - 1].decision.None?))
  {
    ReachableInv(fp, w);
  }

  /** `after` keeps every row of `before`, and every decided row unchanged. */
  ghost predicate Preserves(before: map<nat, Approval>, after: map<nat, Approval>) {
    forall r :: r in before ==>
      && r in after
      && after[r].fingerprint == before[r].fingerprint
      && (before[r].decision.Some? ==> after[r] == before[r])
  }

  lemma NodesLeaveRows(fp: Fingerprinter, w: World, a: Answer)
    requires w.control.Advancing?
    ensures AdvanceStep(fp, w, w.control.caller, w.control.resume, a).approvals == w.approvals
  {
  }

  lemma ExecutionLeavesRows(fp: Fingerprinter, w: World, a: Reply)
    requires w.control.Executing? && w.checkpoint.state.proposal.Some?
    ensures ExecuteStep(fp, w, a).approvals == w.approvals
  {
  }

  lemma StepPreservesDecisions(fp: Fingerprinter, w: World, e: Event)
    ensures Preserves(w.approvals, Apply(fp, w, e).approvals)
  {
    if e.Tick? {
      match w.control {
        case Advancing(_, _) => NodesLeaveRows(fp, w, e.reply.node);
        case Executing(_, _, _, _) =>
          if w.checkpoint.state.proposal.Some? {
            ExecutionLeavesRows(fp, w, e.reply);
          }
        case _ =>
      }
    }
  }

  /** Committed decisions never change. */
  lemma {:induction false} DecisionsNeverChange(fp: Fingerprinter, w: World, events: seq<Event>)
    ensures Preserves(w.approvals, Run(fp, w, events).approvals)
    decreases |events|
  {
    if events != [] {
      StepPreservesDecisions(fp, w, events[0]);
      DecisionsNeverChange(fp, Apply(fp, w, events[0]), events[1..]);
    }
  }

  lemma EndedSubmission(w: World, sub: Submission)
    requires History(w.run, w.approvals) && w.run.Some? && w.run.value.status.Ended?
    ensures Stored(BeginSubmission(w, sub)) == Stored(w)
  {
  }

  lemma EndedTick(fp: Fingerprinter, w: World, a: Reply)
    requires Inv(fp, w) && w.run.Some? && w.run.value.status.Ended?
    ensures Stored(TickStep(fp, w, a)) == Stored(w)
  {
    match w.control {
      case Idle =>
      case Inspecting(r) => EndedInspection(fp, w, r);
      case Persisting(_, p) => EndedCommit(fp, w, p);
      case Advancing(_, _) => AdvancingIsOpen(fp, w);
      case Executing(_, _, _, _) => AdvancingIsOpen(fp, w);
    }
  }

  lemma EndedInspection(fp: Fingerprinter, w: World, r: nat)
    requires w.run.Some? && w.run.value.status.Ended? && OutcomeKept(fp, w.run, w.checkpoint)
    requires r in w.approvals && w.approvals[r].decision.Some?
    ensures Stored(InspectStep(fp, w, r)) == Stored(w)
  {
  }

  lemma EndedCommit(fp: Fingerprinter, w: World, p: Progress)
    requires w.run.Some? && w.run.value.status.Ended? && OutcomeKept(fp, w.run, w.checkpoint)
    requires w.control.Persisting? && w.control.progress == p && ControlOk(fp, w)
    ensures Stored(PersistStep(w, p)) == Stored(w)
  {
    assert w.checkpoint.interrupt.None?;
  }

  lemma EndedStep(fp: Fingerprinter, w: World, e: Event)
    requires Inv(fp, w) && w.run.Some? && w.run.value.status.Ended?
    ensures Stored(Apply(fp, w, e)) == Stored(w)
  {
    match e {
      case Begin(sub) => EndedSubmission(w, sub);
      case Crash =>
      case Tick(a) => EndedTick(fp, w, a);
    }
  }

  /** A finished run keeps its outcome: no later submission, resend or crash changes any store. */
  lemma {:induction false} TerminalRunIsFinal(fp: Fingerprinter, w: World, events: seq<Event>)
    requires Inv(fp, w) && w.run.Some? && w.run.value.status.Ended?
    ensures Stored(Run(fp, w, events)) == Stored(w)
    decreases |events|
  {
    if events != [] {
      EndedStep(fp, w, events[0]);
      ApplyKeepsInv(fp, w, events[0]);
      TerminalRunIsFinal(fp, Apply(fp, w, events[0]), events[1..]);
    }
  }

  // ------------------------------------------------------- reported outcomes

  /** What the row of an action leaves open about its write: nothing when it is completed or safely
      failed, or when there is no row; everything when it is in progress or unknown. */
  ghost predicate WriteMatchesRow(w: World, id: Identity) {
    if id !in w.executions || w.executions[id].status == FailedSafe then w.writes[id] == 0
    else if w.executions[id].status == Completed then w.writes[id] == 1
    else w.writes[id] <= 1
  }

  /** Success: the approved actions were written, each exactly once, and nothing else. */
  ghost predicate AllWritten(fp: Fingerprinter, w: World) {
    var s := w.checkpoint.state;
    && s.proposal.Some? && s.decision == Some(Approved)
    && forall id :: w.writes[id] == if id in ApprovedIds(fp, s) then 1 else 0
  }

  /** Partial failure: the successful prefix was written, exactly once each. */
  ghost predicate PrefixWritten(fp: Fingerprinter, w: World) {
    var s := w.checkpoint.state;
    && s.proposal.Some? && 2 <= |s.records| <= |s.proposal.value.actions|
    && forall i :: 0 <= i < |s.records| - 1 ==> w.writes[IdentityOf(fp, s, s.proposal.value.actions[i])] == 1
  }

  /** The outcome tells the truth about the committed writes; after any outcome a write that it does
      not mention is an approved action's, and its row leaves it open. */
  ghost predicate OutcomeIsTrue(fp: Fingerprinter, w: World, how: TerminalStatus) {
    && (how == RunSucceeded ==> AllWritten(fp, w))
    && (how == RunPartialFailure ==> PrefixWritten(fp, w))
    && (how == RunRejected ==> w.writes == multiset{})
    && (forall id :: WriteMatchesRow(w, id))
    && (forall id :: id in w.writes ==> id in ApprovedIds(fp, w.checkpoint.state))
  }

  /** The outcome of every finished run is true. */
  lemma ReportedOutcomeIsTrue(fp: Fingerprinter, w: World)
    requires Reachable(fp, w) && w.run.Some? && w.run.value.status.Ended?
    ensures OutcomeIsTrue(fp, w, w.run.value.status.how)
  {
    ReachableInv(fp, w);
    FinishedOutcomeIsTrue(fp, w);
  }

  lemma SuccessIsTrue(fp: Fingerprinter, s: GraphState, w: World)
    requires s == w.checkpoint.state && VerifyResult(fp, s).1 == RunSucceeded
    requires ExecutionsOk(fp, s, w.executions, w.writes)
    ensures AllWritten(fp, w)
  {
    SucceededExactly(fp, s);
    var actions := s.proposal.value.actions;
    forall id ensures w.writes[id] == if id in ApprovedIds(fp, s) then 1 else 0 {
      if id in ApprovedIds(fp, s) {
        var action :| action in actions && IdentityOf(fp, s, action) == id;
        var i :| 0 <= i < |actions| && actions[i] == action;
        assert s.records[i].outcome.Succeeded?;
      } else {
        assert id !in w.executions;
      }
    }
  }

  lemma PartialFailureIsTrue(fp: Fingerprinter, s: GraphState, w: World)
    requires s == w.checkpoint.state && VerifyResult(fp, s).1 == RunPartialFailure
    requires ExecutionsOk(fp, s, w.executions, w.writes)
    ensures PrefixWritten(fp, w)
  {
    PartialFailureExactly(fp, s);
  }

  lemma RejectionIsTrue(fp: Fingerprinter, s: GraphState, w: World)
    requires s == w.checkpoint.state && VerifyResult(fp, s).1 == RunRejected
    requires ExecutionsOk(fp, s, w.executions, w.writes)
    ensures w.writes == multiset{}
  {
    RejectedExactly(fp, s);
    assert ApprovedIds(fp, s) == {};
    assert forall id :: id !in w.writes;
  }

  lemma FinishedOutcomeIsTrue(fp: Fingerprinter, w: World)
    requires Inv(fp, w) && w.run.Some? && w.run.value.status.Ended?
    ensures OutcomeIsTrue(fp, w, w.run.value.status.how)
  {
    var s := w.checkpoint.state;
    assert w.run.value.status.how == VerifyResult(fp, s).1;
    match w.run.value.status.how {
      case RunSucceeded => SuccessIsTrue(fp, s, w);
      case RunPartialFailure => PartialFailureIsTrue(fp, s, w);
      case RunRejected => RejectionIsTrue(fp, s, w);
      case RunFailed =>
    }
    forall id ensures WriteMatchesRow(w, id) {
      assert id in w.writes || w.writes[id] == 0;
    }
  }
}
