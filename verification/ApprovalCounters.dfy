/** What token counters do to recovery: a condition that can be read before a submission that needs
    no further plan, and the runs whose counters never stand in the way. */
module ApprovalCounters {
  import opened Options
  import opened RunMetrics
  import opened AgentState
  import opened AgentNodes
  import opened AgentGraph
  import opened ToolExecutions
  import opened ApprovalProtocol
  import opened ApprovalInvariant
  import opened ApprovalTheorems
  import opened ApprovalRecovery
  import PlanGeneration

  /** The counters collected so far add up. */
  predicate BalancedState(s: GraphState) {
    s.metrics.Some? ==> BalancedUsage(s.metrics.value.usage)
  }

  predicate BalancedReply(a: Reply) {
    BalancedUsage(a.node.meter.usage)
  }

  // --------------------------------------------------- submissions that need no plan

  predicate PastPlanning(n: Node) {
    n == Execute || n == Verify || n == Finish || n == End
  }

  /** The work in flight generates no further plan. */
  predicate Closing(w: World) {
    match w.control
    case Idle => false
    case Inspecting(_) => false
    case Advancing(_, resume) =>
      if resume.Some? then
        && w.checkpoint.next == Request
        && Effective(resume.value.decision, w.checkpoint.state.revisionCount) != RequestChanges
      else w.checkpoint.interrupt.None? && PastPlanning(w.checkpoint.next)
    case Executing(_, _, _, _) => true
    case Persisting(_, p) => p.Finished?
  }

  /** The work goes from `w` to `v` without a new plan, and so without new token counters. */
  predicate StaysClosing(w: World, v: World) {
    && (v.control != Idle ==> Closing(v))
    && (BalancedState(v.checkpoint.state) <==> BalancedState(w.checkpoint.state))
  }

  lemma NodeStaysClosing(fp: Fingerprinter, w: World, a: Answer)
    requires w.control.Advancing? && Closing(w) && w.checkpoint.next != Request
    requires GraphInv(fp, w.checkpoint.next, w.checkpoint.state)
    ensures StaysClosing(w, AdvanceStep(fp, w, w.control.caller, w.control.resume, a))
  {
    if w.checkpoint.next == Finish {
      SummarizeNeverRejects(fp, w.checkpoint.state);
    }
  }

  lemma ResumeStaysClosing(fp: Fingerprinter, w: World, a: Answer)
    requires w.control.Advancing? && Closing(w) && w.checkpoint.next == Request
    requires GraphInv(fp, Request, w.checkpoint.state)
    ensures StaysClosing(w, AdvanceStep(fp, w, w.control.caller, w.control.resume, a))
  {
  }

  lemma ExecutionStaysClosing(fp: Fingerprinter, w: World, a: Reply)
    requires w.control.Executing? && w.checkpoint.state.proposal.Some?
    ensures StaysClosing(w, ExecuteStep(fp, w, a))
  {
  }

  lemma TickStaysClosing(fp: Fingerprinter, w: World, a: Reply)
    requires Inv(fp, w) && Closing(w)
    ensures StaysClosing(w, TickStep(fp, w, a))
  {
    match w.control {
      case Advancing(_, _) =>
        if w.checkpoint.next == Request {
          ResumeStaysClosing(fp, w, a.node);
        } else {
          NodeStaysClosing(fp, w, a.node);
        }
      case Executing(_, _, _, _) => ExecutionStaysClosing(fp, w, a);
      case Persisting(_, _) =>
    }
  }

  /** At the end the counters pass exactly when they add up. */
  lemma FinishedPassesExactly(fp: Fingerprinter, c: Checkpoint)
    requires Inspect(fp, c).TerminalAt?
    ensures CountersPass(fp, c) <==> BalancedState(c.state)
  {
  }

  /** Only the commit of a finished checkpoint releases the lock. */
  lemma ClosingEndsFinished(fp: Fingerprinter, w: World, a: Reply)
    requires Inv(fp, w) && UnderWay(w) && Closing(w) && TickStep(fp, w, a).control == Idle
    ensures Inspect(fp, TickStep(fp, w, a).checkpoint).TerminalAt?
  {
    match w.control {
      case Advancing(_, _) => AdvanceGoesOn(fp, w, a.node);
      case Executing(_, _, _, _) => ExecuteStaysBusy(fp, w, a);
      case Persisting(_, _) =>
    }
  }

  lemma ClosingTick(fp: Fingerprinter, w: World, a: Reply)
    requires Inv(fp, w) && UnderWay(w) && Closing(w)
    ensures var v := TickStep(fp, w, a);
            if v.control == Idle then Agrees(fp, v) <==> BalancedState(w.checkpoint.state)
            else Inv(fp, v) && UnderWay(v) && StaysClosing(w, v)
  {
    UnderWayTick(fp, w, a);
    TickStaysClosing(fp, w, a);
    if TickStep(fp, w, a).control == Idle {
      ClosingEndsFinished(fp, w, a);
      FinishedPassesExactly(fp, TickStep(fp, w, a).checkpoint);
    }
  }

  lemma ClosingDrive(fp: Fingerprinter, w: World, env: nat -> Reply, k: nat)
    requires Inv(fp, w) && UnderWay(w) && Closing(w)
    ensures Agrees(fp, Drive(fp, w, env, k)) <==> BalancedState(w.checkpoint.state)
  {
    var adds := BalancedState(w.checkpoint.state);
    var busy := (v: World) =>
      Inv(fp, v) && UnderWay(v) && Closing(v) && (BalancedState(v.checkpoint.state) <==> adds);
    var done := (v: World) => Agrees(fp, v) <==> adds;
    forall v: World, j: nat {:trigger At(v, j)} | v.control != Idle && busy(v)
      ensures var u := TickStep(fp, v, env(j)); if u.control == Idle then done(u) else busy(u)
    {
      ClosingTick(fp, v, env(j));
    }
    DriveInduction(fp, w, env, k, busy, done);
  }

  /** The checkpoint needs no further plan after this effective decision. */
  predicate Closes(c: Checkpoint, d: Decision) {
    if c.interrupt.Some? then d != RequestChanges else PastPlanning(c.next)
  }

  /** A finished or unfinished checkpoint past planning starts closing work or is in agreement. */
  lemma InspectionCloses(fp: Fingerprinter, w: World)
    requires Inv(fp, w) && w.control.Inspecting?
    requires Inspect(fp, w.checkpoint) != Inconsistent
    requires w.checkpoint.interrupt.None? && PastPlanning(w.checkpoint.next)
    ensures var v := InspectStep(fp, w, w.control.revision); v.control != Idle ==> Closing(v)
  {
  }

  lemma ResumptionCloses(fp: Fingerprinter, w: World)
    requires Inv(fp, w) && w.control.Inspecting? && w.control.revision == |w.approvals| - 1
    requires w.checkpoint.interrupt.Some?
    requires Effective(w.approvals[w.control.revision].decision.value, w.control.revision) != RequestChanges
    ensures var v := InspectStep(fp, w, w.control.revision); v.control != Idle ==> Closing(v)
  {
  }

  lemma FoundIsBalanced(fp: Fingerprinter, w: World)
    requires w.control.Inspecting? && ControlOk(fp, w)
    requires InspectStep(fp, w, w.control.revision).control == Idle
    requires FoundAgreement(fp, w, InspectStep(fp, w, w.control.revision))
    ensures BalancedState(w.checkpoint.state)
  {
    FinishedPassesExactly(fp, w.checkpoint);
  }

  /** The inspection found agreement, or started work that needs no further plan. */
  ghost predicate StartsClosing(fp: Fingerprinter, w: World, u: World) {
    if u.control == Idle then FoundAgreement(fp, w, u) else Inv(fp, u) && UnderWay(u) && Closing(u)
  }

  lemma InspectionIsReadOnly(fp: Fingerprinter, w: World)
    requires w.control.Inspecting? && ControlOk(fp, w)
    ensures InspectStep(fp, w, w.control.revision).checkpoint == w.checkpoint
  {
  }

  lemma StartedDrive(fp: Fingerprinter, w: World, u: World, env: nat -> Reply)
    requires StartsClosing(fp, w, u)
    requires u.control == Idle ==> BalancedState(u.checkpoint.state)
    ensures Agrees(fp, Drive(fp, u, env, 1)) <==> BalancedState(u.checkpoint.state)
  {
    if u.control != Idle {
      ClosingDrive(fp, u, env, 1);
    }
  }

  lemma InspectedDrive(fp: Fingerprinter, w: World, env: nat -> Reply)
    requires w.control.Inspecting? && ControlOk(fp, w)
    requires StartsClosing(fp, w, InspectStep(fp, w, w.control.revision))
    ensures Agrees(fp, Drive(fp, w, env, 0)) <==> BalancedState(w.checkpoint.state)
  {
    var u := InspectStep(fp, w, w.control.revision);
    InspectionIsReadOnly(fp, w);
    if u.control == Idle {
      FoundIsBalanced(fp, w);
    }
    StartedDrive(fp, w, u, env);
    DriveInspects(fp, w, env);
  }

  lemma RefusedDrive(fp: Fingerprinter, w: World, env: nat -> Reply)
    requires w.control.Inspecting? && ControlOk(fp, w) && Inspect(fp, w.checkpoint) == Inconsistent
    ensures !Agrees(fp, Drive(fp, w, env, 0))
  {
    DriveInspects(fp, w, env);
  }

  lemma DecidedStartsClosing(fp: Fingerprinter, w: World)
    requires Inv(fp, w) && w.control.Inspecting? && w.control.revision == |w.approvals| - 1
    requires Closes(w.checkpoint, Effective(w.approvals[w.control.revision].decision.value, w.control.revision))
    requires Inspect(fp, w.checkpoint) != Inconsistent
    ensures StartsClosing(fp, w, InspectStep(fp, w, w.control.revision))
  {
    InspectionStarts(fp, w);
    if w.checkpoint.interrupt.Some? {
      ResumptionCloses(fp, w);
    } else {
      InspectionCloses(fp, w);
    }
  }

  lemma DecidedCloses(fp: Fingerprinter, w: World, env: nat -> Reply)
    requires Inv(fp, w) && w.control.Inspecting? && w.control.revision == |w.approvals| - 1
    requires Closes(w.checkpoint, Effective(w.approvals[w.control.revision].decision.value, w.control.revision))
    ensures Agrees(fp, Drive(fp, w, env, 0)) <==>
              Inspect(fp, w.checkpoint) != Inconsistent && BalancedState(w.checkpoint.state)
  {
    if Inspect(fp, w.checkpoint) == Inconsistent {
      RefusedDrive(fp, w, env);
    } else {
      DecidedStartsClosing(fp, w);
      InspectedDrive(fp, w, env);
    }
  }

  lemma SupersededCloses(fp: Fingerprinter, w: World, env: nat -> Reply)
    requires Inv(fp, w) && w.control.Inspecting? && |w.approvals| > 0
    requires w.checkpoint.interrupt.None? && PastPlanning(w.checkpoint.next)
    ensures Agrees(fp, Drive(fp, w, env, 0)) <==>
              Inspect(fp, w.checkpoint) != Inconsistent && BalancedState(w.checkpoint.state)
  {
    if Inspect(fp, w.checkpoint) == Inconsistent {
      RefusedDrive(fp, w, env);
    } else {
      SupersededWorks(fp, w);
      InspectionCloses(fp, w);
      InspectedDrive(fp, w, env);
    }
  }

  /** The submission finds a checkpoint that needs no further plan: past planning, or waiting for a
      decision that does not reopen it. The resend of an earlier revision never answers the wait. */
  predicate NeedsNoPlan(w: World, sub: Submission) {
    || (Superseded(w, sub) && w.checkpoint.interrupt.Some?)
    || Closes(w.checkpoint, Effective(sub.decision, sub.revision))
  }

  /** What can be read before the call: the counters collected so far add up, or are not looked at
      because the resend of an earlier revision leaves the waiting checkpoint as it is. */
  predicate CountersWillPass(w: World, sub: Submission) {
    || (Superseded(w, sub) && w.checkpoint.interrupt.Some?)
    || BalancedState(w.checkpoint.state)
  }

  lemma LatestCloses(fp: Fingerprinter, w: World, sub: Submission, env: nat -> Reply)
    requires Inv(fp, w) && w.control == Idle && Accepted(w, sub)
    requires Closes(w.checkpoint, Effective(sub.decision, sub.revision))
    ensures Agrees(fp, Drive(fp, BeginSubmission(w, sub), env, 0)) <==>
              Inspect(fp, w.checkpoint) != Inconsistent && BalancedState(w.checkpoint.state)
  {
    AcceptedBegins(fp, w, sub);
    BeginKeepsInv(fp, w, sub);
    DecidedCloses(fp, BeginSubmission(w, sub), env);
  }

  lemma EarlierCloses(fp: Fingerprinter, w: World, sub: Submission, env: nat -> Reply)
    requires Inv(fp, w) && w.control == Idle && Superseded(w, sub) && NeedsNoPlan(w, sub)
    ensures Agrees(fp, Drive(fp, BeginSubmission(w, sub), env, 0)) <==>
              Recovers(fp, w, sub) && CountersWillPass(w, sub)
  {
    SupersededConverges(fp, w, sub, env);
    SupersededBegins(fp, w, sub);
    BeginKeepsInv(fp, w, sub);
    var v := BeginSubmission(w, sub);
    match Inspect(fp, w.checkpoint) {
      case Interrupted(i) => SupersededWaits(fp, v, env, i);
      case Inconsistent =>
      case _ => SupersededCloses(fp, v, env);
    }
  }

  /** A condition that can be read before the call: if no further plan is needed, an undisturbed
      submission ends in agreement if and only if the checkpoint that it finds lets it go on and the
      counters collected so far add up, whatever providers, tools and clocks answer. */
  lemma KnownBeforeTheCall(fp: Fingerprinter, w: World, sub: Submission, env: nat -> Reply)
    requires Inv(fp, w) && w.control == Idle && BeginSubmission(w, sub) != w && NeedsNoPlan(w, sub)
    ensures Agrees(fp, Drive(fp, BeginSubmission(w, sub), env, 0)) <==>
              Recovers(fp, w, sub) && CountersWillPass(w, sub)
  {
    TakenExactly(fp, w, sub);
    if Superseded(w, sub) {
      EarlierCloses(fp, w, sub, env);
    } else {
      LatestCloses(fp, w, sub, env);
    }
  }

  // ------------------------------------------------------- counters that always add up

  lemma StepKeepsBalance(fp: Fingerprinter, n: Node, s: GraphState, a: Answer)
    requires BalancedState(s) && BalancedUsage(a.meter.usage)
    ensures BalancedState(Step(fp, n, s, a).0)
  {
  }

  lemma ExecutionKeepsBalance(fp: Fingerprinter, w: World, a: Reply)
    requires w.control.Executing? && w.checkpoint.state.proposal.Some? && BalancedState(w.checkpoint.state)
    ensures BalancedState(ExecuteStep(fp, w, a).checkpoint.state)
  {
  }

  lemma RequestKeepsMetrics(fp: Fingerprinter, s: GraphState, a: Answer)
    ensures RequestApproval(fp, s, a).metrics == s.metrics
  {
  }

  lemma NodesKeepBalance(fp: Fingerprinter, w: World, a: Answer)
    requires w.control.Advancing? && BalancedState(w.checkpoint.state) && BalancedUsage(a.meter.usage)
    ensures BalancedState(AdvanceStep(fp, w, w.control.caller, w.control.resume, a).checkpoint.state)
  {
    var c, k := w.checkpoint, w.control;
    if c.next == Request && k.resume.Some? {
      ResumeStep(fp, w, a);
      RequestKeepsMetrics(fp, c.state, a.(response := k.resume.value));
    } else if c.next != Request && c.next != Execute {
      StepKeepsBalance(fp, c.next, c.state, a);
    }
  }

  lemma TickKeepsBalance(fp: Fingerprinter, w: World, a: Reply)
    requires BalancedState(w.checkpoint.state) && BalancedReply(a)
    ensures BalancedState(TickStep(fp, w, a).checkpoint.state)
  {
    match w.control {
      case Advancing(_, _) => NodesKeepBalance(fp, w, a.node);
      case Executing(_, _, _, _) =>
        if w.checkpoint.state.proposal.Some? {
          ExecutionKeepsBalance(fp, w, a);
        }
      case _ =>
    }
  }

  lemma BalancedDrive(fp: Fingerprinter, w: World, env: nat -> Reply, k: nat)
    requires w.control != Idle && BalancedState(w.checkpoint.state) && forall j: nat :: BalancedReply(env(j))
    ensures BalancedState(Drive(fp, w, env, k).checkpoint.state)
  {
    var balanced := (v: World) => BalancedState(v.checkpoint.state);
    forall v: World, j: nat {:trigger At(v, j)} | v.control != Idle && balanced(v)
      ensures balanced(TickStep(fp, v, env(j)))
    {
      TickKeepsBalance(fp, v, env(j));
    }
    DriveInduction(fp, w, env, k, balanced, balanced);
  }

  lemma BalancedPasses(fp: Fingerprinter, c: Checkpoint)
    requires BalancedState(c.state)
    ensures CountersPass(fp, c)
  {
  }

  /** If all counters add up, the checkpoint that a crash left decides recovery alone. */
  lemma BalancedRecovery(fp: Fingerprinter, w: World, sub: Submission, env: nat -> Reply)
    requires Inv(fp, w) && w.control == Idle && BeginSubmission(w, sub) != w
    requires BalancedState(w.checkpoint.state) && forall j: nat :: BalancedReply(env(j))
    ensures Agrees(fp, Drive(fp, BeginSubmission(w, sub), env, 0)) <==> Recovers(fp, w, sub)
  {
    RecoveryConverges(fp, w, sub, env);
    BalancedDrive(fp, BeginSubmission(w, sub), env, 0);
    BalancedPasses(fp, Drive(fp, BeginSubmission(w, sub), env, 0).checkpoint);
  }

  lemma {:induction false} BalancedHistory(fp: Fingerprinter, w: World, events: seq<Event>)
    requires BalancedState(w.checkpoint.state)
    requires forall e :: e in events && e.Tick? ==> BalancedReply(e.reply)
    ensures BalancedState(Run(fp, w, events).checkpoint.state)
    decreases |events|
  {
    if events != [] {
      assert events[0] in events;
      if events[0].Tick? {
        TickKeepsBalance(fp, w, events[0].reply);
      }
      BalancedHistory(fp, Apply(fp, w, events[0]), events[1..]);
    }
  }

  /** The metrics of a reply aggregate what some bounded plan generation reported, and each of the
      provider's responses, usable or not, reported no counters or consistent ones. */
  ghost predicate WellReportedReply(a: Reply) {
    exists attempts: nat -> PlanGeneration.Attempt, calls: nat ::
      && a.node.meter.usage == AggregateUsage(PlanGeneration.Reported(attempts, calls))
      && forall k: nat :: k < calls && attempts(k).Responded? ==> WellReported(attempts(k).usage)
  }

  lemma WellReportedIsBalanced(a: Reply)
    requires WellReportedReply(a)
    ensures BalancedReply(a)
  {
    var attempts: nat -> PlanGeneration.Attempt, calls: nat :|
      && a.node.meter.usage == AggregateUsage(PlanGeneration.Reported(attempts, calls))
      && forall k: nat :: k < calls && attempts(k).Responded? ==> WellReported(attempts(k).usage);
    PlanGeneration.GeneratedPlanIsBalanced(attempts, calls);
  }

  /** From the provider's responses to recovery: if every response reports consistent counters, one
      undisturbed resend recovers the run under exactly the same condition. */
  lemma WellReportedRunsRecover(fp: Fingerprinter, events: seq<Event>, sub: Submission, env: nat -> Reply)
    requires forall e :: e in events && e.Tick? ==> WellReportedReply(e.reply)
    requires forall j: nat :: WellReportedReply(env(j))
    requires var w := Run(fp, INITIAL_WORLD, events); w.control == Idle && BeginSubmission(w, sub) != w
    ensures var w := Run(fp, INITIAL_WORLD, events);
            Agrees(fp, Drive(fp, BeginSubmission(w, sub), env, 0)) <==> Recovers(fp, w, sub)
  {
    forall e | e in events && e.Tick? ensures BalancedReply(e.reply) {
      WellReportedIsBalanced(e.reply);
    }
    forall j: nat ensures BalancedReply(env(j)) {
      WellReportedIsBalanced(env(j));
    }
    InitiallyInv(fp);
    HistoryKeepsInv(fp, INITIAL_WORLD, events);
    BalancedHistory(fp, INITIAL_WORLD, events);
    BalancedRecovery(fp, Run(fp, INITIAL_WORLD, events), sub, env);
  }
}
