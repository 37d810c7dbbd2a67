/** The workflow service itself: the procedures that start a run and submit an approval, changing
    the stored rows and the checkpoint in place. `env(k)` answers their k-th atomic step, and the
    process dies before step `crashAt`; each procedure is proved to leave the stores exactly where
    the step system leaves them. */
module ApprovalService {
  import opened Options
  import opened RunMetrics
  import opened AgentState
  import opened AgentNodes
  import opened AgentGraph
  import opened ToolExecutions
  import opened ApprovalProtocol
  import opened ApprovalInvariant
  import opened ApprovalTheorems
  import opened ApprovalRecovery

  /** Run until the lock is released or the process dies before step `crashAt`. */
  ghost function DriveUntil(fp: Fingerprinter, w: World, env: nat -> Reply, k: nat, crashAt: nat): (v: World)
    ensures v.control == Idle
    decreases StepsLeft(w)
  {
    if w.control == Idle then w
    else if k >= crashAt then Stored(w)
    else
      TickMakesProgress(fp, w, env(k));
      DriveUntil(fp, TickStep(fp, w, env(k)), env, k + 1, crashAt)
  }

  /** What the caller is told in the end. */
  ghost function DriveReply(fp: Fingerprinter, w: World, env: nat -> Reply, k: nat, crashAt: nat): SubmitReply
    decreases StepsLeft(w)
  {
    if w.control == Idle then Answered
    else if k >= crashAt then Died
    else
      var v := TickStep(fp, w, env(k));
      TickMakesProgress(fp, w, env(k));
      if v.control == Idle then FinalReply(fp, w) else DriveReply(fp, v, env, k + 1, crashAt)
  }

  /** Where a control state is led, from the k-th step on, and what its caller is told. */
  type Finisher = (World, nat) -> (World, SubmitReply)

  /** `finish` leads every world to where the step system leads it. */
  ghost predicate Follows(fp: Fingerprinter, env: nat -> Reply, crashAt: nat, finish: Finisher) {
    forall w: World, k: nat {:trigger At(w, k)} :: At(w, k) && w.control != Idle ==>
      finish(w, k) == if k >= crashAt then (Stored(w), Died)
                      else
                        var v := TickStep(fp, w, env(k));
                        if v.control == Idle then (v, FinalReply(fp, w)) else finish(v, k + 1)
  }

  ghost function Driven(fp: Fingerprinter, env: nat -> Reply, crashAt: nat): Finisher {
    (w: World, k: nat) => (DriveUntil(fp, w, env, k, crashAt), DriveReply(fp, w, env, k, crashAt))
  }

  lemma DriveUntilUnfolds(fp: Fingerprinter, w: World, env: nat -> Reply, k: nat, crashAt: nat)
    requires w.control != Idle
    ensures DriveUntil(fp, w, env, k, crashAt)
         == if k >= crashAt then Stored(w) else DriveUntil(fp, TickStep(fp, w, env(k)), env, k + 1, crashAt)
  {
  }

  lemma DriveReplyUnfolds(fp: Fingerprinter, w: World, env: nat -> Reply, k: nat, crashAt: nat)
    requires w.control != Idle
    ensures DriveReply(fp, w, env, k, crashAt)
         == if k >= crashAt then Died
            else
              var v := TickStep(fp, w, env(k));
              if v.control == Idle then FinalReply(fp, w) else DriveReply(fp, v, env, k + 1, crashAt)
  {
  }

  lemma DrivenUnfolds(fp: Fingerprinter, env: nat -> Reply, crashAt: nat, w: World, k: nat)
    requires w.control != Idle
    ensures Driven(fp, env, crashAt)(w, k)
         == if k >= crashAt then (Stored(w), Died)
            else
              var v := TickStep(fp, w, env(k));
              if v.control == Idle then (v, FinalReply(fp, w)) else Driven(fp, env, crashAt)(v, k + 1)
  {
    DriveUntilUnfolds(fp, w, env, k, crashAt);
    DriveReplyUnfolds(fp, w, env, k, crashAt);
  }

  lemma DrivenFollows(fp: Fingerprinter, env: nat -> Reply, crashAt: nat)
    ensures Follows(fp, env, crashAt, Driven(fp, env, crashAt))
  {
    forall w: World, k: nat {:trigger At(w, k)} | w.control != Idle
      ensures Driven(fp, env, crashAt)(w, k)
           == if k >= crashAt then (Stored(w), Died)
              else
                var v := TickStep(fp, w, env(k));
                if v.control == Idle then (v, FinalReply(fp, w)) else Driven(fp, env, crashAt)(v, k + 1)
    {
      DrivenUnfolds(fp, env, crashAt, w, k);
    }
  }

  /** What every step keeps until the lock is released or the process dies, and then leaves, holds
      of the stores and the reply at the end. */
  lemma {:induction false} FollowInduction(fp: Fingerprinter, env: nat -> Reply, crashAt: nat, finish: Finisher,
                                           w: World, k: nat, busy: (World, nat) -> bool,
                                           done: (World, SubmitReply) -> bool)
    requires Follows(fp, env, crashAt, finish) && w.control != Idle && busy(w, k)
    requires forall v: World, j: nat {:trigger At(v, j)} :: At(v, j) && v.control != Idle && busy(v, j) ==>
               if j >= crashAt then done(Stored(v), Died)
               else
                 var u := TickStep(fp, v, env(j));
                 if u.control == Idle then done(u, FinalReply(fp, v)) else busy(u, j + 1)
    ensures done(finish(w, k).0, finish(w, k).1)
    decreases StepsLeft(w)
  {
    assert At(w, k);
    if k < crashAt {
      var v := TickStep(fp, w, env(k));
      TickMakesProgress(fp, w, env(k));
      if v.control != Idle {
        FollowInduction(fp, env, crashAt, finish, v, k + 1, busy, done);
      }
    }
  }

  /** A crash late enough is no crash. */
  lemma {:induction false} LateCrash(fp: Fingerprinter, w: World, env: nat -> Reply, k: nat, crashAt: nat)
    requires crashAt >= k + StepsLeft(w)
    ensures DriveUntil(fp, w, env, k, crashAt) == Drive(fp, w, env, k)
    decreases StepsLeft(w)
  {
    if w.control != Idle {
      TickMakesProgress(fp, w, env(k));
      LateCrash(fp, TickStep(fp, w, env(k)), env, k + 1, crashAt);
    }
  }

  /** Wherever the process dies, the stores satisfy the invariant; and only agreement is reported
      as an answer. */
  lemma DriveUntilKeepsInv(fp: Fingerprinter, w: World, env: nat -> Reply, k: nat, crashAt: nat)
    requires Inv(fp, w)
    ensures Inv(fp, DriveUntil(fp, w, env, k, crashAt))
    ensures w.control != Idle && DriveReply(fp, w, env, k, crashAt) == Answered ==>
              Agrees(fp, DriveUntil(fp, w, env, k, crashAt))
  {
    if w.control != Idle {
      WorkKeepsInv(fp, w, env, k, crashAt);
    }
  }

  lemma WorkKeepsInv(fp: Fingerprinter, w: World, env: nat -> Reply, k: nat, crashAt: nat)
    requires Inv(fp, w) && w.control != Idle
    ensures var (v, reply) := Driven(fp, env, crashAt)(w, k); Inv(fp, v) && (reply == Answered ==> Agrees(fp, v))
  {
    var busy := (v: World, j: nat) => Inv(fp, v);
    var done := (v: World, reply: SubmitReply) => Inv(fp, v) && (reply == Answered ==> Agrees(fp, v));
    forall v: World, j: nat {:trigger At(v, j)} | v.control != Idle && busy(v, j)
      ensures if j >= crashAt then done(Stored(v), Died)
              else
                var u := TickStep(fp, v, env(j));
                if u.control == Idle then done(u, FinalReply(fp, v)) else busy(u, j + 1)
    {
      StepOrDeath(fp, v, env(j));
    }
    DrivenFollows(fp, env, crashAt);
    FollowInduction(fp, env, crashAt, Driven(fp, env, crashAt), w, k, busy, done);
  }

  lemma StepOrDeath(fp: Fingerprinter, w: World, a: Reply)
    requires Inv(fp, w) && w.control != Idle
    ensures Inv(fp, Stored(w))
    ensures var v := TickStep(fp, w, a);
            Inv(fp, v) && (v.control == Idle && FinalReply(fp, w) == Answered ==> Agrees(fp, v))
  {
    ControlIsVolatile(fp, w, Idle);
    ApplyKeepsInv(fp, w, Tick(a));
    if FinalReply(fp, w) == Answered {
      AnswerAgrees(fp, w, a);
    }
  }

  /** A step that releases the lock with an answer leaves rows and checkpoint in agreement. */
  lemma AnswerAgrees(fp: Fingerprinter, w: World, a: Reply)
    requires Inv(fp, w) && w.control != Idle && FinalReply(fp, w) == Answered
    ensures TickStep(fp, w, a).control == Idle ==> Agrees(fp, TickStep(fp, w, a))
  {
    if w.control.Persisting? {
      CommitAgrees(fp, w);
    }
  }

  /** No submission takes more atomic steps than this. */
  const ENOUGH_STEPS := 2000

  /** A submission that is not refused at once and runs to its end. */
  predicate Undisturbed(w: World, sub: Submission, crashAt: nat) {
    crashAt >= ENOUGH_STEPS && BeginSubmission(w, sub) != w
  }

  /** What holds of a submission wherever it is cut off. */
  lemma SubmissionFacts(fp: Fingerprinter, w: World, sub: Submission, env: nat -> Reply, crashAt: nat)
    requires Inv(fp, w) && w.control == Idle
    ensures var v := DriveUntil(fp, BeginSubmission(w, sub), env, 0, crashAt);
            && Inv(fp, v)
            && Preserves(w.approvals, v.approvals)
  {
    BeginKeepsInv(fp, w, sub);
    DriveUntilKeepsInv(fp, BeginSubmission(w, sub), env, 0, crashAt);
    DrivePreservesDecisions(fp, w, sub, env, crashAt);
  }

  lemma AnsweredFacts(fp: Fingerprinter, w: World, sub: Submission, env: nat -> Reply, crashAt: nat)
    requires Inv(fp, w) && w.control == Idle && BeginSubmission(w, sub).control != Idle
    ensures DriveReply(fp, BeginSubmission(w, sub), env, 0, crashAt) == Answered ==>
              Agrees(fp, DriveUntil(fp, BeginSubmission(w, sub), env, 0, crashAt))
  {
    BeginKeepsInv(fp, w, sub);
    DriveUntilKeepsInv(fp, BeginSubmission(w, sub), env, 0, crashAt);
  }

  /** The caller of work that ended with the stores `v` is answered exactly if the counters pass. */
  function Told(fp: Fingerprinter, v: World): SubmitReply {
    if CountersPass(fp, v.checkpoint) then Answered else Unavailable
  }

  /** Work that is not cut off is answered exactly if the counters of what it reached pass. */
  lemma UnderWayIsTold(fp: Fingerprinter, w: World, env: nat -> Reply, k: nat, crashAt: nat)
    requires Inv(fp, w) && UnderWay(w) && crashAt >= k + StepsLeft(w)
    ensures DriveReply(fp, w, env, k, crashAt) == Told(fp, DriveUntil(fp, w, env, k, crashAt))
  {
    var busy := (v: World, j: nat) => Inv(fp, v) && UnderWay(v) && crashAt >= j + StepsLeft(v);
    var done := (v: World, reply: SubmitReply) => reply == Told(fp, v);
    forall v: World, j: nat {:trigger At(v, j)} | v.control != Idle && busy(v, j)
      ensures if j >= crashAt then done(Stored(v), Died)
              else
                var u := TickStep(fp, v, env(j));
                if u.control == Idle then done(u, FinalReply(fp, v)) else busy(u, j + 1)
    {
      UnderWayTick(fp, v, env(j));
      TickMakesProgress(fp, v, env(j));
    }
    DrivenFollows(fp, env, crashAt);
    FollowInduction(fp, env, crashAt, Driven(fp, env, crashAt), w, k, busy, done);
  }

  /** From the commit of the decision on, undisturbed: answered exactly when the checkpoint passes
      inspection and the counters of the checkpoint that is reached pass. */
  lemma DecidedIsAnswered(fp: Fingerprinter, w: World, env: nat -> Reply, crashAt: nat)
    requires Inv(fp, w) && w.control.Inspecting? && w.control.revision == |w.approvals| - 1
    requires crashAt >= ENOUGH_STEPS
    ensures DriveReply(fp, w, env, 0, crashAt)
         == if Inspect(fp, w.checkpoint) == Inconsistent then Unavailable
            else Told(fp, DriveUntil(fp, w, env, 0, crashAt))
  {
    FirstTick(fp, w, env, crashAt);
    var u := InspectStep(fp, w, w.control.revision);
    if Inspect(fp, w.checkpoint) != Inconsistent {
      InspectionStarts(fp, w);
      if u.control != Idle {
        InspectionIsShort(fp, w);
        UnderWayIsTold(fp, u, env, 1, crashAt);
      }
    }
  }

  lemma InspectionIsShort(fp: Fingerprinter, w: World)
    requires w.control.Inspecting? && ControlOk(fp, w)
    ensures StepsLeft(InspectStep(fp, w, w.control.revision)) < ENOUGH_STEPS
  {
    RankIsSmall(w.checkpoint.next, w.checkpoint.state.revisionCount);
  }

  /** The reply to the resend of an earlier revision whose checkpoint waits. */
  lemma SupersededWaitReply(fp: Fingerprinter, w: World, env: nat -> Reply, crashAt: nat, i: Interrupt)
    requires Inv(fp, w) && w.control.Inspecting? && w.control.revision < |w.approvals| - 1
    requires w.approvals[w.control.revision].decision == Some(RequestChanges)
    requires Inspect(fp, w.checkpoint) == Interrupted(i) && crashAt >= ENOUGH_STEPS
    ensures DriveReply(fp, w, env, 0, crashAt)
         == if LastIsOpen(w.approvals) && w.control.revision == |w.approvals| - 2 then Answered else Unavailable
  {
    SupersededInspection(fp, w, i);
    InterruptPlace(fp, w, i);
    FirstTick(fp, w, env, crashAt);
    var u := InspectStep(fp, w, w.control.revision);
    if u.control != Idle {
      CommitReply(fp, u, env, crashAt, AtApproval(i));
    }
  }

  lemma CommitReply(fp: Fingerprinter, w: World, env: nat -> Reply, crashAt: nat, p: Progress)
    requires w.control.Persisting? && w.control.progress == p && crashAt > 1
    ensures DriveReply(fp, w, env, 1, crashAt) == if PersistCommits(w, p) then Answered else Unavailable
  {
    DriveReplyUnfolds(fp, w, env, 1, crashAt);
  }

  lemma SupersededWorkReply(fp: Fingerprinter, w: World, env: nat -> Reply, crashAt: nat)
    requires Inv(fp, w) && w.control.Inspecting? && |w.approvals| > 0 && crashAt >= ENOUGH_STEPS
    requires Inspect(fp, w.checkpoint).TerminalAt? || Inspect(fp, w.checkpoint) == Continuable
    ensures DriveReply(fp, w, env, 0, crashAt) == Told(fp, DriveUntil(fp, w, env, 0, crashAt))
  {
    FirstTick(fp, w, env, crashAt);
    SupersededWorks(fp, w);
    var u := InspectStep(fp, w, w.control.revision);
    if u.control != Idle {
      InspectionIsShort(fp, w);
      UnderWayIsTold(fp, u, env, 1, crashAt);
    }
  }

  /** Resending the decision on an earlier revision, undisturbed. */
  lemma SupersededIsAnswered(fp: Fingerprinter, w: World, sub: Submission, env: nat -> Reply, crashAt: nat)
    requires Inv(fp, w) && w.control == Idle && Undisturbed(w, sub, crashAt) && Superseded(w, sub)
    ensures var v := BeginSubmission(w, sub);
            DriveReply(fp, v, env, 0, crashAt)
            == if IsAnswered(fp, w, sub) then Told(fp, DriveUntil(fp, v, env, 0, crashAt)) else Unavailable
  {
    SupersededBegins(fp, w, sub);
    BeginKeepsInv(fp, w, sub);
    var v := BeginSubmission(w, sub);
    match Inspect(fp, w.checkpoint) {
      case Interrupted(i) =>
        SupersededWaitReply(fp, v, env, crashAt, i);
        SupersededWaits(fp, v, env, i);
        SubmissionIsShort(w, sub);
        LateCrash(fp, v, env, 0, crashAt);
      case Inconsistent => FirstTick(fp, v, env, crashAt);
      case _ => SupersededWorkReply(fp, v, env, crashAt);
    }
  }

  lemma LatestIsAnswered(fp: Fingerprinter, w: World, sub: Submission, env: nat -> Reply, crashAt: nat)
    requires Inv(fp, w) && w.control == Idle && Undisturbed(w, sub, crashAt) && Accepted(w, sub)
    ensures var v := BeginSubmission(w, sub);
            DriveReply(fp, v, env, 0, crashAt)
            == if Inspect(fp, w.checkpoint) == Inconsistent then Unavailable
               else Told(fp, DriveUntil(fp, v, env, 0, crashAt))
  {
    AcceptedBegins(fp, w, sub);
    BeginKeepsInv(fp, w, sub);
    DecidedIsAnswered(fp, BeginSubmission(w, sub), env, crashAt);
  }

  lemma UndisturbedReply(fp: Fingerprinter, w: World, sub: Submission, env: nat -> Reply, crashAt: nat)
    requires Inv(fp, w) && w.control == Idle && Undisturbed(w, sub, crashAt)
    ensures var v := BeginSubmission(w, sub);
            DriveReply(fp, v, env, 0, crashAt)
            == if IsAnswered(fp, w, sub) then Told(fp, DriveUntil(fp, v, env, 0, crashAt)) else Unavailable
  {
    TakenExactly(fp, w, sub);
    if Superseded(w, sub) {
      SupersededIsAnswered(fp, w, sub, env, crashAt);
    } else {
      LatestIsAnswered(fp, w, sub, env, crashAt);
    }
  }

  /** What an undisturbed submission leaves in the stores and tells its caller. */
  ghost predicate Concludes(fp: Fingerprinter, w: World, sub: Submission, after: World, reply: SubmitReply) {
    var passes := CountersPass(fp, after.checkpoint);
    && (Agrees(fp, after) <==> Recovers(fp, w, sub) && passes)
    && reply == (if IsAnswered(fp, w, sub) && passes then Answered else Unavailable)
  }

  /** Undisturbed, every submission that is not refused at once ends in agreement exactly when the
      checkpoint that it finds lets it go on and the counters of the one that it reaches pass; it is
      answered or told that the service is unavailable accordingly. */
  lemma UndisturbedConverges(fp: Fingerprinter, w: World, sub: Submission, env: nat -> Reply, crashAt: nat)
    requires Inv(fp, w) && w.control == Idle && Undisturbed(w, sub, crashAt)
    ensures var v := BeginSubmission(w, sub);
            Concludes(fp, w, sub, DriveUntil(fp, v, env, 0, crashAt), DriveReply(fp, v, env, 0, crashAt))
  {
    UndisturbedReply(fp, w, sub, env, crashAt);
    RecoveryConverges(fp, w, sub, env);
    SubmissionIsShort(w, sub);
    LateCrash(fp, BeginSubmission(w, sub), env, 0, crashAt);
  }

  lemma SubmissionIsShort(w: World, sub: Submission)
    requires w.control == Idle
    ensures StepsLeft(BeginSubmission(w, sub)) <= ENOUGH_STEPS
  {
  }

  lemma FirstTick(fp: Fingerprinter, w: World, env: nat -> Reply, crashAt: nat)
    requires w.control.Inspecting? && ControlOk(fp, w) && crashAt > 0
    ensures var u := InspectStep(fp, w, w.control.revision);
            && TickStep(fp, w, env(0)) == u
            && DriveUntil(fp, w, env, 0, crashAt) == DriveUntil(fp, u, env, 1, crashAt)
            && DriveReply(fp, w, env, 0, crashAt)
               == if u.control == Idle then FinalReply(fp, w) else DriveReply(fp, u, env, 1, crashAt)
  {
    DriveUntilUnfolds(fp, w, env, 0, crashAt);
    DriveReplyUnfolds(fp, w, env, 0, crashAt);
  }

  /** What the caller of a submission is told. */
  ghost function ReplyTo(fp: Fingerprinter, w: World, sub: Submission, env: nat -> Reply, crashAt: nat): SubmitReply {
    if w.run.None? then NotFound
    else if BeginSubmission(w, sub) == w then Conflict
    else DriveReply(fp, BeginSubmission(w, sub), env, 0, crashAt)
  }

  lemma WorkIsNotRefused(fp: Fingerprinter, w: World, env: nat -> Reply, k: nat, crashAt: nat)
    requires w.control != Idle
    ensures DriveReply(fp, w, env, k, crashAt) in {Died, Unavailable, Answered}
    decreases StepsLeft(w)
  {
    DriveReplyUnfolds(fp, w, env, k, crashAt);
    if k < crashAt && TickStep(fp, w, env(k)).control != Idle {
      TickMakesProgress(fp, w, env(k));
      WorkIsNotRefused(fp, TickStep(fp, w, env(k)), env, k + 1, crashAt);
    }
  }

  lemma TakenWorks(w: World, sub: Submission)
    requires w.control == Idle && BeginSubmission(w, sub) != w
    ensures w.run.Some? && BeginSubmission(w, sub).control == Inspecting(sub.revision)
  {
  }

  /** A submission that is taken is stored as it was made: its revision's row has its decision, its
      feedback and its fingerprint. */
  lemma TakenIsStored(w: World, sub: Submission)
    requires w.control == Idle && BeginSubmission(w, sub) != w
    ensures var v := BeginSubmission(w, sub);
            sub.revision in v.approvals && SameSubmission(v.approvals[sub.revision], sub)
  {
  }

  lemma StoredForGood(fp: Fingerprinter, w: World, sub: Submission, env: nat -> Reply, crashAt: nat)
    requires w.control == Idle && BeginSubmission(w, sub) != w
    ensures var v := DriveUntil(fp, BeginSubmission(w, sub), env, 0, crashAt);
            sub.revision in v.approvals && SameSubmission(v.approvals[sub.revision], sub)
  {
    TakenIsStored(w, sub);
    DriveUntilPreserves(fp, BeginSubmission(w, sub), env, 0, crashAt);
  }

  /** What the reply to a submission says about the stores. */
  ghost predicate ReplyIsTrue(fp: Fingerprinter, w: World, sub: Submission, crashAt: nat,
                              after: World, reply: SubmitReply)
  {
    && Preserves(w.approvals, after.approvals)
    && (reply == NotFound <==> w.run.None?)
    // refused: neither a first decision on the open approval nor the repetition of a stored one
    && (reply == Conflict <==> w.run.Some? && !Accepted(w, sub) && !Superseded(w, sub))
    && (reply == Conflict || reply == NotFound ==> after == w)
    // taken: stored as it was submitted
    && (reply != Conflict && reply != NotFound ==>
          sub.revision in after.approvals && SameSubmission(after.approvals[sub.revision], sub))
    && (reply == Answered ==> Agrees(fp, after))
    // undisturbed, it converges and is answered exactly when the checkpoint that it finds allows it
    // and the counters of the checkpoint that it reaches pass
    && (Undisturbed(w, sub, crashAt) ==> Concludes(fp, w, sub, after, reply))
  }

  lemma SubmissionIsRight(fp: Fingerprinter, w: World, sub: Submission, env: nat -> Reply, crashAt: nat)
    requires Inv(fp, w) && w.control == Idle
    ensures var after := DriveUntil(fp, BeginSubmission(w, sub), env, 0, crashAt);
            Inv(fp, after) && ReplyIsTrue(fp, w, sub, crashAt, after, ReplyTo(fp, w, sub, env, crashAt))
  {
    SubmissionFacts(fp, w, sub, env, crashAt);
    TakenExactly(fp, w, sub);
    if BeginSubmission(w, sub) != w {
      TakenWorks(w, sub);
      StoredForGood(fp, w, sub, env, crashAt);
      AnsweredFacts(fp, w, sub, env, crashAt);
      WorkIsNotRefused(fp, BeginSubmission(w, sub), env, 0, crashAt);
      if Undisturbed(w, sub, crashAt) {
        UndisturbedConverges(fp, w, sub, env, crashAt);
      }
    }
  }

  class AgentWorkflowService {
    const fp: Fingerprinter
    var run: Option<RunRow>
    var approvals: map<nat, Approval>
    var checkpoint: Checkpoint
    var executions: map<Identity, Row>
    var writes: multiset<Identity>

    /** The stores together with a control state. */
    ghost function Now(k: Control): World
      reads this
    {
      World(run, approvals, checkpoint, executions, writes, k)
    }

    ghost predicate Valid()
      reads this
    {
      Inv(fp, Now(Idle))
    }

    /** Create the identities of a run and drive it to its first boundary. */
    constructor StartAgentRun(fp: Fingerprinter, env: nat -> Reply, crashAt: nat)
      ensures Valid()
      ensures this.fp == fp
      ensures Now(Idle) == DriveUntil(fp, INITIAL_WORLD, env, 0, crashAt)
    {
      this.fp := fp;
      run, approvals, checkpoint := None, map[], INITIAL_CHECKPOINT;
      executions, writes := map[], multiset{};
      new;
      assert Now(Advancing(Start, None)) == INITIAL_WORLD;
      DrivenFollows(fp, env, crashAt);
      ghost var finish := Driven(fp, env, crashAt);
      ghost var goal := finish(INITIAL_WORLD, 0);
      var progress, reply, k := Advance(Start, None, env, 0, crashAt, finish, goal);
      if progress.Some? {
        reply := PersistProgress(Start, progress.value, env, k, crashAt, finish, goal);
      }
      InitiallyInv(fp);
      DriveUntilKeepsInv(fp, INITIAL_WORLD, env, 0, crashAt);
    }

    /** Record or recover one exact approval under the run's lock. */
    method SubmitAgentApproval(sub: Submission, env: nat -> Reply, crashAt: nat) returns (reply: SubmitReply)
      requires Valid()
      modifies this
      ensures Valid()
      ensures Now(Idle) == DriveUntil(fp, BeginSubmission(old(Now(Idle)), sub), env, 0, crashAt)
      ensures ReplyIsTrue(fp, old(Now(Idle)), sub, crashAt, Now(Idle), reply)
    {
      ghost var before := Now(Idle);
      reply := RunSubmission(sub, env, crashAt);
      SubmissionIsRight(fp, before, sub, env, crashAt);
    }

    /** The two transactions and the work between them. */
    method RunSubmission(sub: Submission, env: nat -> Reply, crashAt: nat) returns (reply: SubmitReply)
      modifies this
      ensures Now(Idle) == DriveUntil(fp, BeginSubmission(old(Now(Idle)), sub), env, 0, crashAt)
      ensures reply == ReplyTo(fp, old(Now(Idle)), sub, env, crashAt)
    {
      ghost var before := Now(Idle);
      if run.None? {
        return NotFound;
      }
      var accepted := CommitDecision(sub);
      if !accepted {
        return Conflict;
      }
      reply := Continue(sub.revision, env, crashAt, BeginSubmission(before, sub));
    }

    /** Everything after the decision commit, for the step system's own notion of its end. */
    method Continue(revision: nat, env: nat -> Reply, crashAt: nat, ghost w: World) returns (reply: SubmitReply)
      requires w == Now(Inspecting(revision))
      requires run.Some? && revision in approvals && approvals[revision].decision.Some?
      modifies this
      ensures Now(Idle) == DriveUntil(fp, w, env, 0, crashAt) && reply == DriveReply(fp, w, env, 0, crashAt)
      ensures reply == Died || reply == Unavailable || reply == Answered
    {
      DrivenFollows(fp, env, crashAt);
      ghost var finish := Driven(fp, env, crashAt);
      reply := Reconcile(revision, env, crashAt, finish, finish(w, 0));
    }

    /** The first transaction: commit a new decision on the open revision, or accept the resend of a
        committed one; anything else is a conflict. */
    method CommitDecision(sub: Submission) returns (accepted: bool)
      requires run.Some?
      modifies this`run, this`approvals
      ensures BeginSubmission(old(Now(Idle)), sub) == Now(if accepted then Inspecting(sub.revision) else Idle)
      // what is stored is what was submitted, and no other row changes
      ensures accepted ==> run.Some? && sub.revision in approvals && SameSubmission(approvals[sub.revision], sub)
      ensures accepted ==> approvals == old(approvals)[sub.revision := approvals[sub.revision]]
      ensures !accepted ==> approvals == old(approvals) && run == old(run)
    {
      if sub.revision !in approvals {
        return false;
      }
      var approval := approvals[sub.revision];
      if approval.decision.None? {
        if run.value.status != PendingApproval || !IsLatest(approvals, sub.revision)
           || approval.fingerprint != sub.fingerprint {
          return false;
        }
        approvals := approvals[sub.revision := Approval(approval.fingerprint, Some(sub.decision), sub.feedback)];
        run := Some(run.value.(status := Running));
        return true;
      }
      accepted := SameSubmission(approval, sub) && run.value.status != Pending;
    }

    /** After the decision commit: inspect, resume or continue or reconcile, and persist. */
    method Reconcile(revision: nat, env: nat -> Reply, crashAt: nat,
                     ghost finish: Finisher, ghost goal: (World, SubmitReply))
      returns (reply: SubmitReply)
      requires run.Some? && revision in approvals && approvals[revision].decision.Some?
      requires Follows(fp, env, crashAt, finish)
      requires finish(Now(Inspecting(revision)), 0) == goal
      modifies this
      ensures (Now(Idle), reply) == goal
      ensures reply == Died || reply == Unavailable || reply == Answered
    {
      assert At(Now(Inspecting(revision)), 0);
      if crashAt == 0 {
        return Died;
      }
      var approval := approvals[revision];
      var progress, k := None, 1;
      reply := Unavailable;
      match Inspect(fp, checkpoint) {
        case Inconsistent =>
          return Unavailable;
        case TerminalAt(output) =>
          if run.value.status.Ended? && AlreadyMatches(run.value, output) {
            return Answered;
          }
          progress := Some(Finished(output));
        case Continuable =>
          if run.value.status != Running {
            return Unavailable;
          }
          progress, reply, k := Advance(Submit(revision), None, env, 1, crashAt, finish, goal);
        case Interrupted(i) =>
          if i.revision == revision && i.fingerprint == approval.fingerprint {
            if run.value.status != Running {
              return Unavailable;
            }
            progress, reply, k :=
              Advance(Submit(revision), Some(StoredResponse(approval)), env, 1, crashAt, finish, goal);
          } else if approval.decision == Some(RequestChanges) && i.revision == revision + 1 {
            progress := Some(AtApproval(i));
          } else {
            return Unavailable;
          }
      }
      if progress.None? {
        return;
      }
      reply := PersistProgress(Submit(revision), progress.value, env, k, crashAt, finish, goal);
    }

    /** Write the run values and the row of a new approval boundary in one transaction. */
    method PersistProgress(caller: Caller, progress: Progress, env: nat -> Reply, k: nat, crashAt: nat,
                           ghost finish: Finisher, ghost goal: (World, SubmitReply))
      returns (reply: SubmitReply)
      requires Follows(fp, env, crashAt, finish)
      requires finish(Now(Persisting(caller, progress)), k) == goal
      modifies this`run, this`approvals
      ensures (Now(Idle), reply) == goal
      ensures reply == Died || reply == Unavailable || reply == Answered
    {
      assert At(Now(Persisting(caller, progress)), k);
      if k >= crashAt {
        return Died;
      }
      var values := WriteProgress(if run.Some? then run.value else NEW_RUN, progress);
      if !TokenCheck(values.counters) {
        return Unavailable;
      }
      if progress.AtApproval? {
        var i := progress.interrupt;
        if i.revision !in approvals {
          approvals := approvals[i.revision := Approval(i.fingerprint, None, None)];
        } else if approvals[i.revision].decision.Some? || approvals[i.revision].fingerprint != i.fingerprint {
          return Unavailable;
        }
      }
      run := Some(values);
      reply := Answered;
    }

    /** Execute one node other than the execution node and save its checkpoint. */
    method AdvanceNode(caller: Caller, response: Option<Response>, a: Answer) returns (resume: Option<Response>)
      requires checkpoint.next != End && checkpoint.next != Fault
      requires checkpoint.interrupt.None? || response.Some?
      requires checkpoint.next == Execute ==> !(Authorized(fp, checkpoint.state) && a.ok)
      modifies this`checkpoint
      ensures Now(Advancing(caller, resume))
           == AdvanceStep(fp, old(Now(Advancing(caller, response))), caller, response, a)
    {
      var c := checkpoint;
      resume := response;
      if c.next == Request {
        if response.Some? {
          var t := RequestApproval(fp, c.state, a.(response := response.value));
          checkpoint := Checkpoint(t, RouteApproval(t), None);
          resume := None;
        } else if Bound(fp, c.state) && a.ok {
          checkpoint := c.(interrupt := Some(Interrupt(c.state.revisionCount, fp(c.state.proposal.value))));
        } else {
          checkpoint := Checkpoint(Fail(c.state, ApprovalFailed), Verify, None);
        }
      } else if c.next == Execute {
        checkpoint := Checkpoint(Fail(c.state, ExecutionNodeFailed), Verify, None);
      } else {
        var (t, next) := Step(fp, c.next, c.state, a);
        checkpoint := Checkpoint(t, next, None);
      }
    }

    /** At an interrupt or at the end, report the progress to the caller. */
    method LeaveGraph(caller: Caller, resume: Option<Response>, ghost a: Answer)
      returns (left: bool, progress: Option<Progress>)
      ensures left <==> (checkpoint.interrupt.Some? && resume.None?)
                        || checkpoint.next == End || checkpoint.next == Fault
      ensures left ==>
                AdvanceStep(fp, Now(Advancing(caller, resume)), caller, resume, a)
                == Now(if progress.Some? then Persisting(caller, progress.value) else Idle)
      ensures !left ==> progress.None?
    {
      if checkpoint.interrupt.Some? && resume.None? {
        return true, Some(AtApproval(checkpoint.interrupt.value));
      }
      if checkpoint.next == End {
        var inspection := Inspect(fp, checkpoint);
        if inspection.TerminalAt? {
          return true, Some(Finished(inspection.output));
        }
      }
      return checkpoint.next == End || checkpoint.next == Fault, None;
    }

    /** Drive the graph node by node, each with its own checkpoint, to the next boundary.
        No progress is returned when the process dies or the graph raises. */
    method Advance(caller: Caller, response: Option<Response>, env: nat -> Reply, from: nat, crashAt: nat,
                   ghost finish: Finisher, ghost goal: (World, SubmitReply))
      returns (progress: Option<Progress>, reply: SubmitReply, k: nat)
      requires Follows(fp, env, crashAt, finish)
      requires finish(Now(Advancing(caller, response)), from) == goal
      modifies this`checkpoint, this`executions, this`writes
      ensures progress.Some? ==> finish(Now(Persisting(caller, progress.value)), k) == goal
      ensures progress.None? ==> (Now(Idle), reply) == goal && (reply == Died || reply == Unavailable)
    {
      var resume := response;
      k := from;
      progress, reply := None, Died;
      while k < crashAt
        invariant finish(Now(Advancing(caller, resume)), k) == goal
        invariant progress.None? && reply == Died
        decreases crashAt - k
      {
        var left;
        left, progress, reply, resume, k := AdvanceOnce(caller, resume, env, k, crashAt, finish, goal);
        if left {
          return;
        }
      }
      assert At(Now(Advancing(caller, resume)), k);
    }

    /** One round of the graph: leave it, or execute the next node. */
    method AdvanceOnce(caller: Caller, response: Option<Response>, env: nat -> Reply, from: nat, crashAt: nat,
                       ghost finish: Finisher, ghost goal: (World, SubmitReply))
      returns (left: bool, progress: Option<Progress>, reply: SubmitReply, resume: Option<Response>, k: nat)
      requires from < crashAt
      requires Follows(fp, env, crashAt, finish)
      requires finish(Now(Advancing(caller, response)), from) == goal
      modifies this`checkpoint, this`executions, this`writes
      ensures k > from
      ensures progress.Some? ==>
                left && finish(Now(Persisting(caller, progress.value)), k) == goal
      ensures left && progress.None? ==> (Now(Idle), reply) == goal && (reply == Died || reply == Unavailable)
      ensures !left ==> reply == Died && finish(Now(Advancing(caller, resume)), k) == goal
    {
      assert At(Now(Advancing(caller, response)), from);
      var a := env(from).node;
      k := from + 1;
      resume, reply := None, Unavailable;
      left, progress := LeaveGraph(caller, response, a);
      if !left {
        reply := Died;
        if checkpoint.next == Execute && Authorized(fp, checkpoint.state) && a.ok {
          left, k := ExecuteNode(caller, env, k, crashAt, finish, goal);
        } else {
          resume := AdvanceNode(caller, response, a);
        }
      }
    }

    /** The execution node: claim, dispatch and record each action in turn, stop at the first
        failure, and save all records in one checkpoint. */
    method ExecuteNode(caller: Caller, env: nat -> Reply, from: nat, crashAt: nat,
                       ghost finish: Finisher, ghost goal: (World, SubmitReply))
      returns (died: bool, k: nat)
      requires checkpoint.state.proposal.Some?
      requires Follows(fp, env, crashAt, finish)
      requires finish(Now(Executing(caller, 0, [], Ready)), from) == goal
      modifies this`checkpoint, this`executions, this`writes
      ensures k >= from
      ensures died ==> (Now(Idle), Died) == goal
      ensures !died ==> finish(Now(Advancing(caller, None)), k) == goal
    {
      var s := checkpoint.state;
      var actions := s.proposal.value.actions;
      var records, index, phase := [], 0, Ready;
      k := from;
      while phase != Stopped && index < |actions|
        invariant checkpoint.state == s && k >= from
        invariant phase == Ready || phase == Stopped
        invariant finish(Now(Executing(caller, index, records, phase)), k) == goal
        decreases if phase == Stopped then 0 else 1, |actions| - index
      {
        var outcome;
        died, outcome, k := ExecuteAction(caller, index, records, env, k, crashAt, finish, goal);
        if died {
          return;
        }
        records := records + [RecordOf(actions[index], outcome)];
        if outcome.Failed? {
          phase := Stopped;
        } else {
          index := index + 1;
        }
      }
      died, k := SaveRecords(caller, index, records, phase, env, k, crashAt, finish, goal);
    }

    /** Save the records of the execution node in one checkpoint. */
    method SaveRecords(caller: Caller, index: nat, records: seq<Record>, phase: Phase,
                       env: nat -> Reply, from: nat, crashAt: nat,
                       ghost finish: Finisher, ghost goal: (World, SubmitReply))
      returns (died: bool, k: nat)
      requires checkpoint.state.proposal.Some?
      requires phase == Stopped || index >= |checkpoint.state.proposal.value.actions|
      requires Follows(fp, env, crashAt, finish)
      requires finish(Now(Executing(caller, index, records, phase)), from) == goal
      modifies this`checkpoint
      ensures k >= from
      ensures died ==> (Now(Idle), Died) == goal
      ensures !died ==> finish(Now(Advancing(caller, None)), k) == goal
    {
      assert At(Now(Executing(caller, index, records, phase)), from);
      if from >= crashAt {
        return true, from;
      }
      checkpoint := Checkpoint(FinishExecution(checkpoint.state, records), Verify, None);
      return false, from + 1;
    }

    /** One action: up to four transactions, and the process may die between any two. */
    method ExecuteAction(caller: Caller, index: nat, records: seq<Record>, env: nat -> Reply, from: nat, crashAt: nat,
                         ghost finish: Finisher, ghost goal: (World, SubmitReply))
      returns (died: bool, outcome: Outcome, k: nat)
      requires checkpoint.state.proposal.Some? && index < |checkpoint.state.proposal.value.actions|
      requires Follows(fp, env, crashAt, finish)
      requires finish(Now(Executing(caller, index, records, Ready)), from) == goal
      modifies this`executions, this`writes
      ensures k >= from
      ensures died ==> (Now(Idle), Died) == goal
      ensures !died ==> finish(Now(Recorded(caller, index, records, outcome)), k) == goal
    {
      outcome := Failed(OtherError);
      k := from;
      assert At(Now(Executing(caller, index, records, Ready)), k);
      if k >= crashAt {
        return true, outcome, k;
      }
      var claimed;
      claimed, outcome := ClaimAction(caller, index, records, env(k));
      k := k + 1;
      if !claimed {
        return false, outcome, k;
      }
      died, outcome, k := ExecuteClaimed(caller, index, records, env, k, crashAt, finish, goal);
    }

    /** The claim transaction, and the replay of a completed action; nothing is claimed when the
        action has its outcome already. */
    method ClaimAction(caller: Caller, index: nat, records: seq<Record>, reply: Reply)
      returns (claimed: bool, outcome: Outcome)
      requires checkpoint.state.proposal.Some? && index < |checkpoint.state.proposal.value.actions|
      modifies this`executions
      ensures TickStep(fp, old(Now(Executing(caller, index, records, Ready))), reply)
           == Now(if claimed then Executing(caller, index, records, ActionClaimed)
                  else Recorded(caller, index, records, outcome))
    {
      var action := checkpoint.state.proposal.value.actions[index];
      var id := IdentityOf(fp, checkpoint.state, action);
      outcome := Failed(OtherError);
      if !reply.node.ok {
        return false, outcome;
      }
      var (rows, told) := ClaimStep(executions, id, action.tool, PersistedApproval(approvals, id),
                                    reply.tool.now, reply.tool.claim);
      executions := rows;
      if told.ToReplay? {
        var result := LoadPublicResult(told.row, reply.tool.loaded);
        if result.Some? && ResultFits(action.tool, result.value) {
          outcome := Succeeded(result.value);
        }
      }
      claimed := told.ToExecute?;
    }

    /** Dispatch a claimed action and record how it ended. */
    method ExecuteClaimed(caller: Caller, index: nat, records: seq<Record>, env: nat -> Reply, from: nat, crashAt: nat,
                          ghost finish: Finisher, ghost goal: (World, SubmitReply))
      returns (died: bool, outcome: Outcome, k: nat)
      requires checkpoint.state.proposal.Some? && index < |checkpoint.state.proposal.value.actions|
      requires Follows(fp, env, crashAt, finish)
      requires finish(Now(Executing(caller, index, records, ActionClaimed)), from) == goal
      modifies this`executions, this`writes
      ensures k >= from
      ensures died ==> (Now(Idle), Died) == goal
      ensures !died ==> finish(Now(Recorded(caller, index, records, outcome)), k) == goal
    {
      var action := checkpoint.state.proposal.value.actions[index];
      outcome := Failed(OtherError);
      k := from;
      assert At(Now(Executing(caller, index, records, ActionClaimed)), k);
      if k >= crashAt {
        return true, outcome, k;
      }
      var d := env(k).tool.dispatch;
      k := k + 1;
      if Wrote(d) {
        writes := writes + multiset{IdentityOf(fp, checkpoint.state, action)};
      }
      if d.Returned? && ResultFits(action.tool, d.result) {
        died, outcome, k := ExecuteWritten(caller, index, records, d.result, env, k, crashAt, finish, goal);
      } else {
        var error := if d.Raised? then d.error else OtherError;
        died, outcome, k := ExecuteFailing(caller, index, records, error, env, k, crashAt, finish, goal);
      }
    }

    /** Complete the row of a written action; a lost completion leaves the outcome unknown. */
    method ExecuteWritten(caller: Caller, index: nat, records: seq<Record>, result: ToolResult,
                          env: nat -> Reply, from: nat, crashAt: nat,
                          ghost finish: Finisher, ghost goal: (World, SubmitReply))
      returns (died: bool, outcome: Outcome, k: nat)
      requires checkpoint.state.proposal.Some? && index < |checkpoint.state.proposal.value.actions|
      requires Follows(fp, env, crashAt, finish)
      requires finish(Now(Executing(caller, index, records, ActionWritten(result))), from) == goal
      modifies this`executions
      ensures k >= from
      ensures died ==> (Now(Idle), Died) == goal
      ensures !died ==> finish(Now(Recorded(caller, index, records, outcome)), k) == goal
    {
      outcome := Failed(OtherError);
      k := from;
      assert At(Now(Executing(caller, index, records, ActionWritten(result))), k);
      if k >= crashAt {
        return true, outcome, k;
      }
      var id := IdentityOf(fp, checkpoint.state, checkpoint.state.proposal.value.actions[index]);
      var (rows, done) := CompletionStep(executions, id, result, env(k).tool.now, env(k).tool.completion);
      executions := rows;
      k := k + 1;
      if done {
        return false, Succeeded(result), k;
      }
      died, outcome, k := ExecuteFailing(caller, index, records, OtherError, env, k, crashAt, finish, goal);
    }

    /** Mark the row of a failed action. */
    method ExecuteFailing(caller: Caller, index: nat, records: seq<Record>, error: DomainError,
                          env: nat -> Reply, from: nat, crashAt: nat,
                          ghost finish: Finisher, ghost goal: (World, SubmitReply))
      returns (died: bool, outcome: Outcome, k: nat)
      requires checkpoint.state.proposal.Some? && index < |checkpoint.state.proposal.value.actions|
      requires Follows(fp, env, crashAt, finish)
      requires finish(Now(Executing(caller, index, records, ActionFailing(error))), from) == goal
      modifies this`executions
      ensures k >= from
      ensures died ==> (Now(Idle), Died) == goal
      ensures !died ==> finish(Now(Recorded(caller, index, records, outcome)), k) == goal
    {
      outcome := Failed(OtherError);
      assert At(Now(Executing(caller, index, records, ActionFailing(error))), from);
      if from >= crashAt {
        return true, outcome, from;
      }
      var id := IdentityOf(fp, checkpoint.state, checkpoint.state.proposal.value.actions[index]);
      outcome := Failed(ReportedError(executions, id, error, env(from).tool.failure));
      executions := FailureStep(executions, id, error, env(from).tool.now, env(from).tool.failure);
      return false, outcome, from + 1;
    }

    /** The control state after the current action ended with `outcome`. */
    ghost function Recorded(caller: Caller, index: nat, records: seq<Record>, outcome: Outcome): Control
      requires checkpoint.state.proposal.Some? && index < |checkpoint.state.proposal.value.actions|
      reads this
    {
      var after := records + [RecordOf(checkpoint.state.proposal.value.actions[index], outcome)];
      if outcome.Failed? then Executing(caller, index, after, Stopped)
      else Executing(caller, index + 1, after, Ready)
    }
  }

  lemma {:induction false} DriveUntilPreserves(fp: Fingerprinter, w: World, env: nat -> Reply, k: nat, crashAt: nat)
    ensures Preserves(w.approvals, DriveUntil(fp, w, env, k, crashAt).approvals)
    decreases StepsLeft(w)
  {
    if w.control != Idle && k < crashAt {
      StepPreservesDecisions(fp, w, Tick(env(k)));
      TickMakesProgress(fp, w, env(k));
      DriveUntilPreserves(fp, TickStep(fp, w, env(k)), env, k + 1, crashAt);
    }
  }

  lemma DrivePreservesDecisions(fp: Fingerprinter, w: World, sub: Submission, env: nat -> Reply, crashAt: nat)
    ensures Preserves(w.approvals, DriveUntil(fp, BeginSubmission(w, sub), env, 0, crashAt).approvals)
  {
    StepPreservesDecisions(fp, w, Begin(sub));
    DriveUntilPreserves(fp, BeginSubmission(w, sub), env, 0, crashAt);
  }
}
