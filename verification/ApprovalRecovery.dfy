/** Recovery after a crash: when one undisturbed resend brings the product rows and the
    checkpoint back into agreement, and when nothing ever does. */
module ApprovalRecovery {
  import opened Options
  import opened RunMetrics
  import opened AgentState
  import opened AgentNodes
  import opened AgentGraph
  import opened ToolExecutions
  import opened ApprovalProtocol
  import opened ApprovalInvariant
  import opened ApprovalTheorems

  // ------------------------------------------------------ undisturbed progress

  function PhaseRank(p: Phase): nat {
    match p
    case Ready => 4
    case ActionClaimed => 3
    case ActionWritten(_) => 2
    case ActionFailing(_) => 1
    case Stopped => 0
  }

  /** A bound on the atomic steps left until the lock is released. */
  function StepsLeft(w: World): nat {
    match w.control
    case Idle => 0
    case Persisting(_, _) => 1
    case Inspecting(_) => 2000
    case Advancing(_, _) =>
      2 + 40 * Rank(w.checkpoint.next, w.checkpoint.state.revisionCount)
      + (if w.checkpoint.interrupt.None? then 1 else 0)
    case Executing(_, index, _, phase) =>
      84 + 5 * (if index < MAX_PLAN_ACTIONS then MAX_PLAN_ACTIONS - index else 0) + PhaseRank(phase)
  }

  lemma AdvanceMakesProgress(fp: Fingerprinter, w: World, a: Answer)
    requires w.control.Advancing?
    ensures StepsLeft(AdvanceStep(fp, w, w.control.caller, w.control.resume, a)) < StepsLeft(w)
  {
    var c := w.checkpoint;
    if c.next == Request && w.control.resume.Some? {
      RankFalls(fp, c.next, c.state, a.(response := w.control.resume.value));
    } else if c.next != End && c.next != Fault {
      RankFalls(fp, c.next, c.state, a);
    }
  }

  /** A step inside one action goes to a later phase, to the next action, or stops. */
  ghost predicate MovesOn(k: Control, after: Control)
    requires k.Executing?
  {
    && after.Executing?
    && (|| (after.index == k.index && PhaseRank(after.phase) < PhaseRank(k.phase))
        || (after.index == k.index + 1 && after.phase == Ready))
  }

  lemma ClaimMovesOn(w: World, action: Action, id: Identity, a: Reply)
    requires w.control.Executing? && w.control.phase == Ready
    ensures MovesOn(w.control, ClaimPhase(w, action, id, a).control)
  {
  }

  lemma ActionMakesProgress(fp: Fingerprinter, w: World, a: Reply)
    requires w.control.Executing? && w.checkpoint.state.proposal.Some?
    requires w.control.index < |w.checkpoint.state.proposal.value.actions| && w.control.phase != Stopped
    ensures MovesOn(w.control, ExecuteStep(fp, w, a).control)
  {
    if w.control.phase == Ready {
      var action := w.checkpoint.state.proposal.value.actions[w.control.index];
      ClaimMovesOn(w, action, IdentityOf(fp, w.checkpoint.state, action), a);
    }
  }

  lemma ExecuteMakesProgress(fp: Fingerprinter, w: World, a: Reply)
    requires w.control.Executing? && w.checkpoint.state.proposal.Some?
    ensures StepsLeft(ExecuteStep(fp, w, a)) < StepsLeft(w)
  {
    var actions := w.checkpoint.state.proposal.value.actions;
    if w.control.index < |actions| && w.control.phase != Stopped {
      assert |actions| <= MAX_PLAN_ACTIONS;
      ActionMakesProgress(fp, w, a);
    }
  }

  lemma TickMakesProgress(fp: Fingerprinter, w: World, a: Reply)
    requires w.control != Idle
    ensures StepsLeft(TickStep(fp, w, a)) < StepsLeft(w)
  {
    match w.control {
      case Advancing(_, _) => AdvanceMakesProgress(fp, w, a.node);
      case Executing(_, _, _, _) =>
        if w.checkpoint.state.proposal.Some? {
          ExecuteMakesProgress(fp, w, a);
        }
      case Inspecting(_) => RankIsSmall(w.checkpoint.next, w.checkpoint.state.revisionCount);
      case Persisting(_, _) =>
    }
  }

  lemma RankIsSmall(n: Node, revisionCount: nat)
    ensures Rank(n, revisionCount) <= 14
  {
  }

  /** Run without crashing until the lock is released; `env(k)` answers the k-th step. */
  function Drive(fp: Fingerprinter, w: World, env: nat -> Reply, k: nat): (v: World)
    ensures v.control == Idle
    decreases StepsLeft(w)
  {
    if w.control == Idle then w
    else
      TickMakesProgress(fp, w, env(k));
      Drive(fp, TickStep(fp, w, env(k)), env, k + 1)
  }

  // ------------------------------------------------------------------ replies

  datatype SubmitReply = NotFound | Conflict | Unavailable | Answered | Died

  /** What the caller is told when the step taken in `w` releases the lock. */
  function FinalReply(fp: Fingerprinter, w: World): SubmitReply {
    match w.control
    case Inspecting(_) => if Inspect(fp, w.checkpoint).TerminalAt? then Answered else Unavailable
    case Persisting(_, p) => if PersistCommits(w, p) then Answered else Unavailable
    case _ => Unavailable
  }

  // ---------------------------------------------------------------- agreement

  /** The product rows say what the checkpoint says: the same outcome, or the same open question. */
  ghost predicate Agrees(fp: Fingerprinter, w: World) {
    && w.run.Some?
    && match Inspect(fp, w.checkpoint)
       case TerminalAt(o) => AlreadyMatches(w.run.value, o)
       case Interrupted(i) =>
         && w.run.value.status == PendingApproval
         && IsLatest(w.approvals, i.revision)
         && w.approvals[i.revision].decision.None?
         && w.approvals[i.revision].fingerprint == i.fingerprint
       case Continuable => false
       case Inconsistent => false
  }

  /** A finished checkpoint has token counters that the run table accepts. */
  predicate CountersPass(fp: Fingerprinter, c: Checkpoint) {
    match Inspect(fp, c)
    case TerminalAt(o) => o.metrics.Some? ==> TokenCheck(PersistedCounters(o.metrics.value))
    case _ => true
  }

  /** A submission's work is in flight, towards the commit of what the checkpoint will hold. */
  ghost predicate UnderWay(w: World) {
    match w.control
    case Idle => false
    case Inspecting(_) => false
    case Advancing(caller, _) => caller.Submit?
    case Executing(caller, _, _, _) => caller.Submit?
    case Persisting(caller, p) => caller.Submit? && (p.AtApproval? ==> p.interrupt.revision !in w.approvals)
  }

  /** Where an advance goes: on, or to the commit of what the checkpoint holds. */
  ghost predicate GoesOn(w: World, v: World) {
    && v.control != Idle && !v.control.Inspecting? && v.control.caller.Submit?
    && (v.control.Persisting? ==> v.checkpoint == w.checkpoint && v.approvals == w.approvals)
    && (v.control.Persisting? && v.control.progress.AtApproval? ==>
          v.control.progress.interrupt.revision !in w.approvals)
  }

  lemma NodeGoesOn(fp: Fingerprinter, w: World, a: Answer)
    requires w.control.Advancing? && w.control.caller.Submit?
    requires w.checkpoint.interrupt.None? || w.control.resume.Some?
    requires w.checkpoint.next != End && w.checkpoint.next != Fault
    ensures var v := AdvanceStep(fp, w, w.control.caller, w.control.resume, a);
            (v.control.Advancing? || v.control.Executing?) && v.control.caller == w.control.caller
  {
  }

  lemma BoundaryGoesOn(fp: Fingerprinter, w: World, a: Answer)
    requires ControlOk(fp, w) && History(w.run, w.approvals)
    requires w.control.Advancing? && w.control.caller.Submit? && w.control.resume.None?
    requires w.checkpoint.interrupt.Some?
    ensures GoesOn(w, AdvanceStep(fp, w, w.control.caller, w.control.resume, a))
  {
  }

  lemma EndGoesOn(fp: Fingerprinter, w: World, a: Answer)
    requires CheckpointOk(fp, w.checkpoint) && w.checkpoint.next == End
    requires w.control.Advancing? && w.control.caller.Submit? && w.control.resume.None?
    ensures GoesOn(w, AdvanceStep(fp, w, w.control.caller, w.control.resume, a))
  {
    SummarizeNeverRejects(fp, w.checkpoint.state);
  }

  lemma AdvanceGoesOn(fp: Fingerprinter, w: World, a: Answer)
    requires Inv(fp, w) && w.control.Advancing? && w.control.caller.Submit?
    ensures GoesOn(w, AdvanceStep(fp, w, w.control.caller, w.control.resume, a))
  {
    if w.control.resume.None? && w.checkpoint.interrupt.Some? {
      BoundaryGoesOn(fp, w, a);
    } else if w.checkpoint.next == End {
      EndGoesOn(fp, w, a);
    } else {
      NodeGoesOn(fp, w, a);
    }
  }

  /** A progress that is committed leaves rows and checkpoint in agreement. */
  lemma CommitAgrees(fp: Fingerprinter, w: World)
    requires Inv(fp, w) && w.control.Persisting? && PersistCommits(w, w.control.progress)
    ensures Agrees(fp, PersistStep(w, w.control.progress))
  {
    match w.control.progress {
      case Finished(o) =>
      case AtApproval(i) => BoundaryIsLatest(w.run, w.approvals, w.checkpoint, i);
    }
  }

  lemma BoundaryIsLatest(run: Option<RunRow>, approvals: map<nat, Approval>, c: Checkpoint, i: Interrupt)
    requires History(run, approvals) && Linked(run, approvals, c)
    requires c.interrupt == Some(i) && c.next == Request && i.revision == c.state.revisionCount
    ensures i.revision in approvals ==> IsLatest(approvals, i.revision)
    ensures i.revision !in approvals ==> i.revision == |approvals|
  {
  }

  /** What the release of the lock after step `w` means for the stores `v` and for the reply. */
  ghost predicate Settles(fp: Fingerprinter, w: World, v: World) {
    && (Agrees(fp, v) <==> CountersPass(fp, v.checkpoint))
    && FinalReply(fp, w) == (if CountersPass(fp, v.checkpoint) then Answered else Unavailable)
  }

  /** A commit that is under way happens exactly when the counters pass. */
  lemma CommitsExactly(fp: Fingerprinter, w: World)
    requires w.control.Persisting? && UnderWay(w) && ControlOk(fp, w) && CheckpointOk(fp, w.checkpoint)
    requires w.run.Some? && TokenCheck(w.run.value.counters)
    ensures PersistCommits(w, w.control.progress) <==> CountersPass(fp, w.checkpoint)
  {
  }

  /** A finished run row whose counters do not pass is not the row of the checkpoint. */
  lemma RefusedDisagrees(fp: Fingerprinter, w: World)
    requires w.run.Some? && TokenCheck(w.run.value.counters) && !CountersPass(fp, w.checkpoint)
    ensures !Agrees(fp, w)
  {
  }

  lemma CommitSettles(fp: Fingerprinter, w: World)
    requires Inv(fp, w) && w.control.Persisting? && UnderWay(w)
    ensures Settles(fp, w, PersistStep(w, w.control.progress))
  {
    CommitsExactly(fp, w);
    if PersistCommits(w, w.control.progress) {
      CommitAgrees(fp, w);
    } else {
      RefusedDisagrees(fp, PersistStep(w, w.control.progress));
    }
  }

  lemma TickStaysUnderWay(fp: Fingerprinter, w: World, a: Reply)
    requires Inv(fp, w) && UnderWay(w)
    ensures var v := TickStep(fp, w, a);
            if v.control == Idle then Settles(fp, w, v) else UnderWay(v)
  {
    match w.control {
      case Advancing(_, _) => AdvanceGoesOn(fp, w, a.node);
      case Persisting(_, _) => CommitSettles(fp, w);
      case Executing(_, _, _, _) => ExecuteStaysBusy(fp, w, a);
    }
  }

  lemma ExecuteStaysBusy(fp: Fingerprinter, w: World, a: Reply)
    requires ControlOk(fp, w) && w.control.Executing?
    ensures var v := TickStep(fp, w, a);
            && (v.control.Executing? || v.control.Advancing?)
            && v.control.caller == w.control.caller
  {
  }

  lemma DriveUnfolds(fp: Fingerprinter, w: World, env: nat -> Reply, k: nat)
    requires w.control != Idle
    ensures Drive(fp, w, env, k) == Drive(fp, TickStep(fp, w, env(k)), env, k + 1)
  {
  }

  /** Points the verifier at one step of an undisturbed run. */
  predicate At(w: World, k: nat) {
    true
  }

  /** What every step keeps until the lock is released, and then leaves, holds at the end. */
  lemma {:induction false} DriveInduction(fp: Fingerprinter, w: World, env: nat -> Reply, k: nat,
                                          busy: World -> bool, done: World -> bool)
    requires w.control != Idle && busy(w)
    requires forall v: World, j: nat {:trigger At(v, j)} :: At(v, j) && v.control != Idle && busy(v) ==>
               var u := TickStep(fp, v, env(j)); if u.control == Idle then done(u) else busy(u)
    ensures done(Drive(fp, w, env, k))
    decreases StepsLeft(w)
  {
    var v := TickStep(fp, w, env(k));
    DriveUnfolds(fp, w, env, k);
    assert At(w, k);
    TickMakesProgress(fp, w, env(k));
    if v.control != Idle {
      DriveInduction(fp, v, env, k + 1, busy, done);
    }
  }

  /** Work under way ends in agreement exactly when the counters of what it reached pass. */
  lemma DriveReachesAgreement(fp: Fingerprinter, w: World, env: nat -> Reply, k: nat)
    requires Inv(fp, w) && UnderWay(w)
    ensures var v := Drive(fp, w, env, k); Agrees(fp, v) <==> CountersPass(fp, v.checkpoint)
  {
    var busy := (v: World) => Inv(fp, v) && UnderWay(v);
    var done := (v: World) => Agrees(fp, v) <==> CountersPass(fp, v.checkpoint);
    forall v: World, j: nat {:trigger At(v, j)} | v.control != Idle && busy(v)
      ensures var u := TickStep(fp, v, env(j)); if u.control == Idle then done(u) else busy(u)
    {
      UnderWayTick(fp, v, env(j));
    }
    DriveInduction(fp, w, env, k, busy, done);
  }

  lemma UnderWayTick(fp: Fingerprinter, w: World, a: Reply)
    requires Inv(fp, w) && UnderWay(w)
    ensures var v := TickStep(fp, w, a);
            && Inv(fp, v)
            && if v.control == Idle then Settles(fp, w, v) else UnderWay(v)
  {
    ApplyKeepsInv(fp, w, Tick(a));
    TickStaysUnderWay(fp, w, a);
  }

  // ----------------------------------------------------------- the main result

  /** The submission decides the open revision, or repeats the committed decision on the last one. */
  predicate Accepted(w: World, sub: Submission) {
    && w.run.Some?
    && IsLatest(w.approvals, sub.revision)
    && var a := w.approvals[sub.revision];
       if a.decision.None? then a.fingerprint == sub.fingerprint else SameSubmission(a, sub)
  }

  lemma LatestIsLast(fp: Fingerprinter, w: World, revision: nat)
    requires Inv(fp, w) && IsLatest(w.approvals, revision)
    ensures revision == |w.approvals| - 1
  {
    assert |w.approvals| - 1 in w.approvals;
  }

  lemma AcceptedBegins(fp: Fingerprinter, w: World, sub: Submission)
    requires Inv(fp, w) && w.control == Idle && Accepted(w, sub)
    ensures var v := BeginSubmission(w, sub);
            && v.control == Inspecting(sub.revision)
            && v.checkpoint == w.checkpoint
            && |v.approvals| == |w.approvals| && sub.revision == |v.approvals| - 1
  {
    LatestIsLast(fp, w, sub.revision);
    assert |w.approvals[sub.revision := w.approvals[sub.revision]]| == |w.approvals|;
  }

  /** The inspection of `w` found agreement and left everything as it was. */
  ghost predicate FoundAgreement(fp: Fingerprinter, w: World, v: World) {
    Agrees(fp, v) && CountersPass(fp, v.checkpoint) && FinalReply(fp, w) == Answered
  }

  /** Looking at a recoverable checkpoint either finds agreement or starts work. */
  lemma InspectionHelps(fp: Fingerprinter, w: World)
    requires Inv(fp, w) && w.control.Inspecting? && w.control.revision == |w.approvals| - 1
    requires Inspect(fp, w.checkpoint) != Inconsistent
    ensures var v := InspectStep(fp, w, w.control.revision);
            if v.control == Idle then FoundAgreement(fp, w, v) else UnderWay(v)
  {
    match Inspect(fp, w.checkpoint) {
      case TerminalAt(o) => TerminalHelps(fp, w, o);
      case Continuable => OpenIsRunning(fp, w);
      case Interrupted(i) =>
        OpenIsRunning(fp, w);
        InterruptHelps(fp, w, i);
    }
  }

  lemma TerminalHelps(fp: Fingerprinter, w: World, o: Output)
    requires w.control.Inspecting? && ControlOk(fp, w) && TokenCheck(w.run.value.counters)
    requires Inspect(fp, w.checkpoint) == TerminalAt(o)
    ensures var v := InspectStep(fp, w, w.control.revision);
            if v.control == Idle then FoundAgreement(fp, w, v) else UnderWay(v)
  {
  }

  /** A decided run whose checkpoint is not finished is still running. */
  lemma OpenIsRunning(fp: Fingerprinter, w: World)
    requires Durable(fp, w) && ControlOk(fp, w) && w.control.Inspecting? && w.control.revision == |w.approvals| - 1
    requires !Inspect(fp, w.checkpoint).TerminalAt?
    ensures w.run.value.status == Running
  {
  }

  lemma InterruptHelps(fp: Fingerprinter, w: World, i: Interrupt)
    requires w.control.Inspecting? && ControlOk(fp, w) && w.control.revision == |w.approvals| - 1
    requires History(w.run, w.approvals) && Linked(w.run, w.approvals, w.checkpoint)
    requires CheckpointOk(fp, w.checkpoint)
    requires Inspect(fp, w.checkpoint) == Interrupted(i) && w.run.value.status == Running
    ensures UnderWay(InspectStep(fp, w, w.control.revision))
  {
  }

  lemma InspectionStarts(fp: Fingerprinter, w: World)
    requires Inv(fp, w) && w.control.Inspecting? && w.control.revision == |w.approvals| - 1
    requires Inspect(fp, w.checkpoint) != Inconsistent
    ensures var v := InspectStep(fp, w, w.control.revision);
            if v.control == Idle then FoundAgreement(fp, w, v) else Inv(fp, v) && UnderWay(v)
  {
    InspectionHelps(fp, w);
    InspectKeepsInv(fp, w);
  }

  /** A submission first looks at the checkpoint. */
  lemma DriveInspects(fp: Fingerprinter, w: World, env: nat -> Reply)
    requires w.control.Inspecting? && ControlOk(fp, w)
    ensures Drive(fp, w, env, 0) == Drive(fp, InspectStep(fp, w, w.control.revision), env, 1)
    ensures TickStep(fp, w, env(0)) == InspectStep(fp, w, w.control.revision)
  {
    DriveUnfolds(fp, w, env, 0);
  }

  /** From the moment the decision is committed: agreement if and only if the checkpoint passes
      inspection and the counters of the checkpoint that is reached pass the table's check. */
  lemma DecidedConverges(fp: Fingerprinter, w: World, env: nat -> Reply)
    requires Inv(fp, w) && w.control.Inspecting? && w.control.revision == |w.approvals| - 1
    ensures var v := Drive(fp, w, env, 0);
            Agrees(fp, v) <==> Inspect(fp, w.checkpoint) != Inconsistent && CountersPass(fp, v.checkpoint)
  {
    DriveInspects(fp, w, env);
    var u := InspectStep(fp, w, w.control.revision);
    if Inspect(fp, w.checkpoint) != Inconsistent {
      InspectionStarts(fp, w);
      if u.control != Idle {
        DriveReachesAgreement(fp, u, env, 1);
      }
    } else {
      assert u == w.(control := Idle);
    }
  }

  /** A submission on the last revision. */
  lemma LatestConverges(fp: Fingerprinter, w: World, sub: Submission, env: nat -> Reply)
    requires Inv(fp, w) && w.control == Idle && Accepted(w, sub)
    ensures var v := Drive(fp, BeginSubmission(w, sub), env, 0);
            Agrees(fp, v) <==> Inspect(fp, w.checkpoint) != Inconsistent && CountersPass(fp, v.checkpoint)
  {
    AcceptedBegins(fp, w, sub);
    BeginKeepsInv(fp, w, sub);
    DecidedConverges(fp, BeginSubmission(w, sub), env);
  }

  // -------------------------------------------------- resends of an earlier revision

  /** The submission repeats the committed decision on a revision that has been followed by another. */
  predicate Superseded(w: World, sub: Submission) {
    && w.run.Some?
    && sub.revision in w.approvals && sub.revision + 1 in w.approvals
    && SameSubmission(w.approvals[sub.revision], sub)
  }

  /** The last approval row is still open. */
  predicate LastIsOpen(approvals: map<nat, Approval>) {
    |approvals| > 0 && |approvals| - 1 in approvals && approvals[|approvals| - 1].decision.None?
  }

  lemma SupersededBegins(fp: Fingerprinter, w: World, sub: Submission)
    requires Inv(fp, w) && w.control == Idle && Superseded(w, sub)
    ensures BeginSubmission(w, sub) == w.(control := Inspecting(sub.revision))
    ensures sub.revision < |w.approvals| - 1
    ensures w.approvals[sub.revision].decision == Some(RequestChanges)
  {
  }

  /** Where the checkpoint waits: at the last approval, or at one that has no row yet. */
  lemma InterruptPlace(fp: Fingerprinter, w: World, i: Interrupt)
    requires Durable(fp, w) && |w.approvals| > 0 && w.run.Some? && Inspect(fp, w.checkpoint) == Interrupted(i)
    ensures i.revision == |w.approvals| - 1 || i.revision == |w.approvals|
    ensures LastIsOpen(w.approvals) ==>
              i == Interrupt(|w.approvals| - 1, w.approvals[|w.approvals| - 1].fingerprint)
  {
  }

  /** Waiting at an open approval is agreement; waiting at a decided one, or at one without a row, is not. */
  lemma WaitingAgreesExactly(fp: Fingerprinter, w: World, i: Interrupt)
    requires Durable(fp, w) && |w.approvals| > 0 && w.run.Some? && Inspect(fp, w.checkpoint) == Interrupted(i)
    ensures Agrees(fp, w) <==> LastIsOpen(w.approvals)
  {
    InterruptPlace(fp, w, i);
    LastIsPresent(w.run, w.approvals);
  }

  lemma LastIsPresent(run: Option<RunRow>, approvals: map<nat, Approval>)
    requires History(run, approvals) && |approvals| > 0
    ensures IsLatest(approvals, |approvals| - 1) && |approvals| !in approvals
  {
  }

  /** The only resend of an earlier revision that reaches the commit is that of the revision before
      the last, and the commit is refused unless the last approval is open. */
  lemma SupersededInspection(fp: Fingerprinter, w: World, i: Interrupt)
    requires Inv(fp, w) && w.control.Inspecting? && w.control.revision < |w.approvals| - 1
    requires w.approvals[w.control.revision].decision == Some(RequestChanges)
    requires Inspect(fp, w.checkpoint) == Interrupted(i)
    ensures var r, u := w.control.revision, InspectStep(fp, w, w.control.revision);
            if r == |w.approvals| - 2 && i.revision == |w.approvals| - 1
            then u == w.(control := Persisting(Submit(r), AtApproval(i)))
                 && (PersistCommits(u, AtApproval(i)) <==> LastIsOpen(w.approvals))
            else u == w.(control := Idle)
  {
    InterruptPlace(fp, w, i);
  }

  /** The outcome of resending an earlier revision: agreement, unless the checkpoint is refused or
      waits at an approval that is not the open one. */
  ghost predicate SupersededAgrees(fp: Fingerprinter, w: World) {
    match Inspect(fp, w.checkpoint)
    case TerminalAt(_) => true
    case Continuable => true
    case Interrupted(_) => LastIsOpen(w.approvals)
    case Inconsistent => false
  }

  lemma SupersededWaits(fp: Fingerprinter, w: World, env: nat -> Reply, i: Interrupt)
    requires Inv(fp, w) && w.control.Inspecting? && w.control.revision < |w.approvals| - 1
    requires w.approvals[w.control.revision].decision == Some(RequestChanges)
    requires Inspect(fp, w.checkpoint) == Interrupted(i)
    ensures Agrees(fp, Drive(fp, w, env, 0)) <==> LastIsOpen(w.approvals)
    ensures Drive(fp, w, env, 0).checkpoint == w.checkpoint
  {
    SupersededInspection(fp, w, i);
    DriveInspects(fp, w, env);
    var u := InspectStep(fp, w, w.control.revision);
    if u.control != Idle {
      DriveCommits(fp, u, env, Submit(w.control.revision), AtApproval(i));
      InspectKeepsInv(fp, w);
      if LastIsOpen(w.approvals) {
        CommitAgrees(fp, u);
      }
    }
    ControlIsVolatile(fp, w, Idle);
    WaitingAgreesExactly(fp, w.(control := Idle), i);
  }

  lemma ContinuableIsRunning(fp: Fingerprinter, w: World)
    requires Durable(fp, w) && |w.approvals| > 0 && w.run.Some? && Inspect(fp, w.checkpoint) == Continuable
    ensures w.run.value.status == Running
  {
  }

  /** A resend of an earlier revision finishes work in flight as well as one of the last does. */
  lemma SupersededWorks(fp: Fingerprinter, w: World)
    requires Inv(fp, w) && w.control.Inspecting?
    requires Inspect(fp, w.checkpoint).TerminalAt? || Inspect(fp, w.checkpoint) == Continuable
    requires |w.approvals| > 0
    ensures var v := InspectStep(fp, w, w.control.revision);
            if v.control == Idle then FoundAgreement(fp, w, v) else Inv(fp, v) && UnderWay(v)
  {
    InspectKeepsInv(fp, w);
    match Inspect(fp, w.checkpoint) {
      case TerminalAt(o) => TerminalHelps(fp, w, o);
      case Continuable => ContinuableIsRunning(fp, w);
    }
  }

  lemma SupersededFinishes(fp: Fingerprinter, w: World, env: nat -> Reply)
    requires Inv(fp, w) && w.control.Inspecting? && |w.approvals| > 0
    requires Inspect(fp, w.checkpoint).TerminalAt? || Inspect(fp, w.checkpoint) == Continuable
    ensures var v := Drive(fp, w, env, 0); Agrees(fp, v) <==> CountersPass(fp, v.checkpoint)
  {
    SupersededWorks(fp, w);
    DriveInspects(fp, w, env);
    var u := InspectStep(fp, w, w.control.revision);
    if u.control != Idle {
      DriveReachesAgreement(fp, u, env, 1);
    }
  }

  lemma SupersededDecided(fp: Fingerprinter, w: World, env: nat -> Reply)
    requires Inv(fp, w) && w.control.Inspecting? && w.control.revision < |w.approvals| - 1
    requires w.approvals[w.control.revision].decision == Some(RequestChanges)
    ensures var v := Drive(fp, w, env, 0);
            Agrees(fp, v) <==> SupersededAgrees(fp, w) && CountersPass(fp, v.checkpoint)
  {
    match Inspect(fp, w.checkpoint) {
      case Interrupted(i) => SupersededWaits(fp, w, env, i);
      case Inconsistent => DriveInspects(fp, w, env);
      case _ => SupersededFinishes(fp, w, env);
    }
  }

  /** Resending the decision on an earlier revision, undisturbed: it finishes or reconciles whatever
      the crash left, but it cannot resume a newer decision or announce a newer boundary. */
  lemma SupersededConverges(fp: Fingerprinter, w: World, sub: Submission, env: nat -> Reply)
    requires Inv(fp, w) && w.control == Idle && Superseded(w, sub)
    ensures var v := Drive(fp, BeginSubmission(w, sub), env, 0);
            Agrees(fp, v) <==> SupersededAgrees(fp, w) && CountersPass(fp, v.checkpoint)
  {
    SupersededBegins(fp, w, sub);
    BeginKeepsInv(fp, w, sub);
    SupersededDecided(fp, BeginSubmission(w, sub), env);
  }

  // ------------------------------------------------------------- every submission

  /** The submissions that are not refused at once are those on the last revision and the resends of
      earlier ones. */
  lemma TakenExactly(fp: Fingerprinter, w: World, sub: Submission)
    requires Inv(fp, w) && w.control == Idle
    ensures BeginSubmission(w, sub) != w <==> Accepted(w, sub) || Superseded(w, sub)
    ensures !(Accepted(w, sub) && Superseded(w, sub))
  {
    if w.run.Some? && sub.revision in w.approvals {
      LastIsPresent(w.run, w.approvals);
    }
  }

  /** The checkpoint that a submission finds lets it go on: on the last revision exactly when it
      passes inspection, on an earlier one exactly when it also does not wait at an approval that is
      not the open one. */
  ghost predicate Recovers(fp: Fingerprinter, w: World, sub: Submission) {
    if Superseded(w, sub) then SupersededAgrees(fp, w) else Inspect(fp, w.checkpoint) != Inconsistent
  }

  /** Which undisturbed submissions are answered, if their counters pass; the others are told that the
      service is unavailable. Of the earlier revisions only the one before the last can confirm the
      open approval. */
  ghost predicate IsAnswered(fp: Fingerprinter, w: World, sub: Submission) {
    && Recovers(fp, w, sub)
    && (Superseded(w, sub) && Inspect(fp, w.checkpoint).Interrupted? ==> sub.revision == |w.approvals| - 2)
  }

  /** When recovery converges: from any reachable state of the stores, and whatever providers, tools
      and clocks answer, one undisturbed submission ends with product rows and checkpoint in agreement
      if and only if the checkpoint that the crash left lets it go on, and the counters of the
      checkpoint that it reaches pass the run table's check. */
  lemma RecoveryConverges(fp: Fingerprinter, w: World, sub: Submission, env: nat -> Reply)
    requires Inv(fp, w) && w.control == Idle && BeginSubmission(w, sub) != w
    ensures var v := Drive(fp, BeginSubmission(w, sub), env, 0);
            Agrees(fp, v) <==> Recovers(fp, w, sub) && CountersPass(fp, v.checkpoint)
  {
    TakenExactly(fp, w, sub);
    if Superseded(w, sub) {
      SupersededConverges(fp, w, sub, env);
    } else {
      LatestConverges(fp, w, sub, env);
    }
  }

  /** The same over whole histories, whatever submissions, steps and crashes came before. */
  lemma ResendRecovers(fp: Fingerprinter, events: seq<Event>, sub: Submission, env: nat -> Reply)
    requires var w := Run(fp, INITIAL_WORLD, events); w.control == Idle && BeginSubmission(w, sub) != w
    ensures var w := Run(fp, INITIAL_WORLD, events);
            var v := Drive(fp, BeginSubmission(w, sub), env, 0);
            Agrees(fp, v) <==> Recovers(fp, w, sub) && CountersPass(fp, v.checkpoint)
  {
    InitiallyInv(fp);
    HistoryKeepsInv(fp, INITIAL_WORLD, events);
    RecoveryConverges(fp, Run(fp, INITIAL_WORLD, events), sub, env);
  }

  /** A finished checkpoint is reconciled by a resend exactly when its token counters pass the
      table's check, whatever the provider reported. */
  lemma FinishedReconciles(fp: Fingerprinter, w: World, sub: Submission, env: nat -> Reply, o: Output)
    requires Inv(fp, w) && w.control == Idle && Accepted(w, sub)
    requires Inspect(fp, w.checkpoint) == TerminalAt(o)
    ensures Agrees(fp, Drive(fp, BeginSubmission(w, sub), env, 0))
       <==> (o.metrics.Some? ==> TokenCheck(PersistedCounters(o.metrics.value)))
  {
    AcceptedBegins(fp, w, sub);
    BeginKeepsInv(fp, w, sub);
    DecidedReconciles(fp, BeginSubmission(w, sub), env, o);
  }

  lemma DecidedReconciles(fp: Fingerprinter, w: World, env: nat -> Reply, o: Output)
    requires w.control.Inspecting? && ControlOk(fp, w) && TokenCheck(w.run.value.counters)
    requires Inspect(fp, w.checkpoint) == TerminalAt(o)
    ensures Agrees(fp, Drive(fp, w, env, 0))
       <==> (o.metrics.Some? ==> TokenCheck(PersistedCounters(o.metrics.value)))
  {
    DriveInspects(fp, w, env);
    var u := InspectStep(fp, w, w.control.revision);
    if u.control != Idle {
      DriveCommits(fp, u, env, Submit(w.control.revision), Finished(o));
      FinishedCommit(fp, u, Submit(w.control.revision), o);
    }
  }

  lemma DriveCommits(fp: Fingerprinter, w: World, env: nat -> Reply, caller: Caller, p: Progress)
    requires w.control == Persisting(caller, p)
    ensures Drive(fp, w, env, 1) == PersistStep(w, p)
  {
    DriveUnfolds(fp, w, env, 1);
  }

  /** The commit of a finished checkpoint ends in agreement exactly when the table accepts it. */
  lemma FinishedCommit(fp: Fingerprinter, w: World, caller: Caller, o: Output)
    requires w.control == Persisting(caller, Finished(o)) && Inspect(fp, w.checkpoint) == TerminalAt(o)
    requires w.run.Some? && TokenCheck(w.run.value.counters) && !AlreadyMatches(w.run.value, o)
    ensures Agrees(fp, PersistStep(w, Finished(o)))
       <==> (o.metrics.Some? ==> TokenCheck(PersistedCounters(o.metrics.value)))
  {
  }

  // ------------------------------------------------------------ the stuck states

  /** In terms of the graph: a crash after the verifying node, or after the approval node recorded
      a rejection, leaves a checkpoint that inspection refuses; no other reachable one does. */
  lemma InconsistentExactly(fp: Fingerprinter, w: World)
    requires Inv(fp, w)
    ensures Inspect(fp, w.checkpoint) == Inconsistent <==>
              || w.checkpoint.next == Finish
              || (w.checkpoint.next == Verify && w.checkpoint.state.terminal == Some(RunRejected))
  {
    if w.checkpoint.next == End {
      SummarizeNeverRejects(fp, w.checkpoint.state);
    }
  }

  lemma StuckStep(fp: Fingerprinter, w: World, e: Event)
    requires Inv(fp, w) && (w.control == Idle || w.control.Inspecting?)
    requires Inspect(fp, w.checkpoint) == Inconsistent
    ensures var v := Apply(fp, w, e);
            Stored(v) == Stored(w) && (v.control == Idle || v.control.Inspecting?)
  {
    assert w.run.Some? ==> w.run.value.status != PendingApproval;
  }

  /** Such a run is stuck for good: no sequence of submissions, resends and crashes ever changes
      any store again. */
  lemma {:induction false} StuckForever(fp: Fingerprinter, w: World, events: seq<Event>)
    requires Inv(fp, w) && (w.control == Idle || w.control.Inspecting?)
    requires Inspect(fp, w.checkpoint) == Inconsistent
    ensures Stored(Run(fp, w, events)) == Stored(w)
    decreases |events|
  {
    if events != [] {
      StuckStep(fp, w, events[0]);
      ApplyKeepsInv(fp, w, events[0]);
      StuckForever(fp, Apply(fp, w, events[0]), events[1..]);
    }
  }
}
