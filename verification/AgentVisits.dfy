/** What a complete run of the graph did, node by node: who was asked what, which plan was shown, and
    what its outcome and its counters stand for. */
module AgentVisits {
  import opened Options
  import opened RunMetrics
  import opened AgentState
  import opened AgentNodes
  import opened AgentGraph

  /** A node of a run, and the state that it finds. */
  datatype Stop = Stop(node: Node, state: GraphState)

  /** What follows when the node is answered. */
  function Next(fp: Fingerprinter, v: Stop, a: Answer): Stop {
    if v.node == End || v.node == Fault then v
    else
      var (t, next) := Step(fp, v.node, v.state, a);
      Stop(next, t)
  }

  /** The j-th stop of the run; `env(j)` answers it. */
  function Visit(fp: Fingerprinter, env: nat -> Answer, j: nat): Stop {
    if j == 0 then Stop(Analyze, INITIAL_STATE) else Next(fp, Visit(fp, env, j - 1), env(j - 1))
  }

  /** The whole run. */
  function Whole(fp: Fingerprinter, env: nat -> Answer): Final {
    RunGraph(fp, Analyze, INITIAL_STATE, env, 0)
  }

  /** Points the verifier at one stop. */
  predicate Here(j: nat) {
    true
  }

  /** `trail(j)` is the j-th stop of the run. */
  ghost predicate Trail(fp: Fingerprinter, env: nat -> Answer, trail: nat -> Stop) {
    && trail(0) == Stop(Analyze, INITIAL_STATE)
    && forall j: nat {:trigger Here(j)} :: Here(j) ==> trail(j + 1) == Next(fp, trail(j), env(j))
  }

  /** The run has exactly one trail, its visits. */
  lemma {:induction false} TrailIsVisits(fp: Fingerprinter, env: nat -> Answer, trail: nat -> Stop, j: nat)
    requires Trail(fp, env, trail)
    ensures trail(j) == Visit(fp, env, j)
  {
    if j > 0 {
      TrailIsVisits(fp, env, trail, j - 1);
      assert Here(j - 1);
    }
  }

  lemma VisitsAreTrail(fp: Fingerprinter, env: nat -> Answer)
    ensures Trail(fp, env, (j: nat) => Visit(fp, env, j))
  {
    var trail := (j: nat) => Visit(fp, env, j);
    forall j: nat {:trigger Here(j)} ensures trail(j + 1) == Next(fp, trail(j), env(j)) {
    }
    assert trail(0) == Visit(fp, env, 0);
  }

  /** The stops so far are nodes of the run. */
  ghost predicate Passed(trail: nat -> Stop, j: nat) {
    forall i: nat {:trigger trail(i)} :: i < j ==> trail(i).node != End && trail(i).node != Fault
  }

  lemma {:induction false} TrailInv(fp: Fingerprinter, env: nat -> Answer, trail: nat -> Stop, j: nat)
    requires Trail(fp, env, trail)
    ensures GraphInv(fp, trail(j).node, trail(j).state) && trail(j).node != Fault
  {
    if j > 0 {
      TrailInv(fp, env, trail, j - 1);
      assert Here(j - 1);
      StepPreservesInv(fp, trail(j - 1).node, trail(j - 1).state, env(j - 1));
    }
  }

  /** The run makes its stops in turn and ends with the last. */
  lemma RunFollowsTrail(fp: Fingerprinter, env: nat -> Answer, trail: nat -> Stop)
    requires Trail(fp, env, trail)
    ensures var f := Whole(fp, env);
            f.node == End && trail(f.executed) == Stop(End, f.state) && Passed(trail, f.executed)
  {
    var good := (n: Node, s: GraphState, j: nat) => trail(j) == Stop(n, s) && Passed(trail, j);
    forall n: Node, s: GraphState, j: nat {:trigger AtNode(n, s, j)} | n != End && n != Fault && good(n, s, j)
      ensures var (t, next) := Step(fp, n, s, env(j)); good(next, t, j + 1)
    {
      assert Here(j);
    }
    RunInduction(fp, Analyze, INITIAL_STATE, env, 0, good);
    RunKeepsInv(fp, Analyze, INITIAL_STATE, env, 0);
  }

  lemma {:induction false} StaysAtEnd(fp: Fingerprinter, env: nat -> Answer, trail: nat -> Stop, i: nat, j: nat)
    requires Trail(fp, env, trail) && i <= j && trail(i).node == End
    ensures trail(j) == trail(i)
    decreases j - i
  {
    if i < j {
      assert Here(i);
      StaysAtEnd(fp, env, trail, i + 1, j);
    }
  }

  /** The run ends at the stop after its last node. */
  lemma EndsHere(fp: Fingerprinter, env: nat -> Answer, trail: nat -> Stop, j: nat)
    requires Trail(fp, env, trail) && trail(j).node != End && trail(j + 1).node == End
    ensures Whole(fp, env) == Final(trail(j + 1).state, End, j + 1)
  {
    RunFollowsTrail(fp, env, trail);
    if Whole(fp, env).executed < j + 1 {
      StaysAtEnd(fp, env, trail, Whole(fp, env).executed, j);
    }
  }

  /** Every stop but the first comes from a node of the run. */
  lemma CameFrom(fp: Fingerprinter, env: nat -> Answer, trail: nat -> Stop, j: nat)
    requires Trail(fp, env, trail) && j > 0 && (trail(j).node != End || trail(j - 1).node != End)
    ensures var v := trail(j - 1);
            && v.node != End && v.node != Fault && GraphInv(fp, v.node, v.state)
            && trail(j) == Next(fp, v, env(j - 1))
  {
    TrailInv(fp, env, trail, j - 1);
    assert Here(j - 1);
  }

  // --------------------------------------------------------------- where nodes lead

  /** The last two nodes classify the state and write the summary, and change nothing else. */
  predicate Concluded(fp: Fingerprinter, s: GraphState, t: GraphState) {
    && t.terminal == Some(VerifyResult(fp, s).1) && t.verification == Some(VerifyResult(fp, s).0)
    && t == s.(verification := t.verification, terminal := t.terminal, summary := t.summary)
  }

  lemma LastTwoNodes(fp: Fingerprinter, s: GraphState, a: Answer, b: Answer)
    requires GraphInv(fp, Verify, s)
    ensures var (t, next) := Step(fp, Verify, s, a);
            && next == Finish
            && Step(fp, Finish, t, b).1 == End && Concluded(fp, s, Step(fp, Finish, t, b).0)
  {
    var t := Step(fp, Verify, s, a).0;
    VerifyKeepsInv(fp, s);
    SummarizeNeverRejects(fp, t);
  }

  /** From a verifying node the run ends after one more. */
  lemma VerifyEnds(fp: Fingerprinter, env: nat -> Answer, trail: nat -> Stop, j: nat)
    requires Trail(fp, env, trail)
    requires trail(j).node == Verify
    ensures Whole(fp, env).executed == j + 2 && Concluded(fp, trail(j).state, Whole(fp, env).state)
  {
    TrailInv(fp, env, trail, j);
    LastTwoNodes(fp, trail(j).state, env(j), env(j + 1));
    assert Here(j);
    assert Here(j + 1);
    EndsHere(fp, env, trail, j + 1);
  }

  /** Where the approval node is reached from: a plan that was generated and accepted just before. */
  lemma ShownPlanWasAccepted(fp: Fingerprinter, env: nat -> Answer, trail: nat -> Stop, j: nat)
    requires Trail(fp, env, trail)
    requires trail(j).node == Request
    ensures j >= 2 && trail(j - 2).node == Generate && trail(j - 1).node == Validate
    ensures env(j - 2).ok && env(j - 1).ok && env(j - 1).planAccepted
    ensures trail(j).state.proposal == Some(env(j - 2).proposal)
  {
    CameFrom(fp, env, trail, j);
    ReachesRequest(fp, trail(j - 1).node, trail(j - 1).state, env(j - 1));
    CameFrom(fp, env, trail, j - 1);
    ReachesValidate(fp, trail(j - 2).node, trail(j - 2).state, env(j - 2));
  }

  lemma ReachesRequest(fp: Fingerprinter, n: Node, s: GraphState, a: Answer)
    requires n != End && n != Fault && Step(fp, n, s, a).1 == Request
    ensures n == Validate && a.ok && a.planAccepted && Step(fp, n, s, a).0.proposal == s.proposal
  {
  }

  lemma ReachesValidate(fp: Fingerprinter, n: Node, s: GraphState, a: Answer)
    requires n != End && n != Fault && Step(fp, n, s, a).1 == Validate
    ensures n == Generate && a.ok && Step(fp, n, s, a).0.proposal == Some(a.proposal)
  {
  }

  /** A refused plan is never shown: whenever the validating node is not answered with an accepted
      plan, the run executes two more nodes and ends failed, with no decision on it and nothing done. */
  lemma RefusedPlanFails(fp: Fingerprinter, env: nat -> Answer, trail: nat -> Stop, j: nat)
    requires Trail(fp, env, trail)
    requires trail(j).node == Validate && !(env(j).ok && env(j).planAccepted)
    ensures var f := Whole(fp, env);
            && f.executed == j + 3 && f.state.terminal == Some(RunFailed)
            && f.state.records == [] && NotApproved(f.state)
  {
    TrailInv(fp, env, trail, j);
    assert Here(j);
    RefusedStep(fp, trail(j).state, env(j));
    VerifyEnds(fp, env, trail, j + 1);
  }

  lemma RefusedStep(fp: Fingerprinter, s: GraphState, a: Answer)
    requires GraphInv(fp, Validate, s) && !(a.ok && a.planAccepted)
    ensures var (t, next) := Step(fp, Validate, s, a);
            && next == Verify && VerifyResult(fp, t).1 == RunFailed && t.records == [] && NotApproved(t)
  {
  }

  // ---------------------------------------------------------------- what an approval covers

  /** From node `k` on: a plan was generated, accepted, shown, and answered. */
  ghost predicate Shown(env: nat -> Answer, trail: nat -> Stop, k: nat) {
    && trail(k).node == Generate
    && env(k).ok && env(k + 1).ok && env(k + 1).planAccepted && env(k + 2).ok
  }

  /** That plan was approved and its execution node ran. */
  ghost predicate Carried(env: nat -> Answer, trail: nat -> Stop, k: nat) {
    Shown(env, trail, k) && env(k + 2).response.decision == Approved && env(k + 3).ok
  }

  /** It was rejected, or changed once too often. */
  ghost predicate TurnedDown(env: nat -> Answer, trail: nat -> Stop, k: nat) {
    && Shown(env, trail, k)
    && (|| env(k + 2).response.decision == Rejected
        || (env(k + 2).response.decision == RequestChanges && trail(k).state.revisionCount == 2))
  }

  /** The first `n` actions succeeded. */
  predicate ToolsSucceed(tools: seq<Outcome>, n: nat) {
    forall i: nat :: i < n ==> OutcomeAt(tools, i).Succeeded?
  }

  lemma GeneratedStep(fp: Fingerprinter, s: GraphState, a: Answer)
    requires GraphInv(fp, Generate, s) && a.ok
    ensures Step(fp, Generate, s, a).1 == Validate && Step(fp, Generate, s, a).0.proposal == Some(a.proposal)
    ensures Step(fp, Generate, s, a).0.revisionCount == s.revisionCount
  {
  }

  lemma AcceptedStep(fp: Fingerprinter, s: GraphState, a: Answer)
    requires GraphInv(fp, Validate, s) && a.ok && a.planAccepted
    ensures Step(fp, Validate, s, a).1 == Request && Step(fp, Validate, s, a).0.proposal == s.proposal
    ensures Step(fp, Validate, s, a).0.revisionCount == s.revisionCount
  {
  }

  /** A plan that was generated and accepted is shown. */
  lemma ShownIsReached(fp: Fingerprinter, env: nat -> Answer, trail: nat -> Stop, k: nat)
    requires Trail(fp, env, trail)
    requires Shown(env, trail, k)
    ensures var v := trail(k + 2);
            && v.node == Request && v.state.proposal == Some(env(k).proposal)
            && v.state.revisionCount == trail(k).state.revisionCount
  {
    TrailInv(fp, env, trail, k);
    GeneratedStep(fp, trail(k).state, env(k));
    assert Here(k);
    TrailInv(fp, env, trail, k + 1);
    AcceptedStep(fp, trail(k + 1).state, env(k + 1));
    assert Here(k + 1);
  }

  lemma ApprovedStep(fp: Fingerprinter, s: GraphState, a: Answer)
    requires GraphInv(fp, Request, s) && a.ok && a.response.decision == Approved
    ensures Step(fp, Request, s, a).1 == Execute && Step(fp, Request, s, a).0.proposal == s.proposal
  {
  }

  lemma ExecutedStep(fp: Fingerprinter, s: GraphState, a: Answer)
    requires GraphInv(fp, Execute, s) && a.ok
    ensures var (t, next) := Step(fp, Execute, s, a);
            && next == Verify && t.proposal == s.proposal && t.error.None? && Authorized(fp, t)
            && t.records == ExecutionRecords(s.proposal.value.actions, a.tools)
  {
  }

  /** The state before verification when a plan was carried out. */
  predicate Executed(fp: Fingerprinter, env: nat -> Answer, k: nat, v: Stop) {
    && v.node == Verify && v.state.proposal == Some(env(k).proposal)
    && v.state.error.None? && Authorized(fp, v.state)
    && v.state.records == ExecutionRecords(env(k).proposal.actions, env(k + 3).tools)
  }

  lemma CarriedIsExecuted(fp: Fingerprinter, env: nat -> Answer, trail: nat -> Stop, k: nat)
    requires Trail(fp, env, trail)
    requires Carried(env, trail, k)
    ensures Executed(fp, env, k, trail(k + 4))
  {
    ShownIsReached(fp, env, trail, k);
    TrailInv(fp, env, trail, k + 2);
    ApprovedStep(fp, trail(k + 2).state, env(k + 2));
    assert Here(k + 2);
    TrailInv(fp, env, trail, k + 3);
    ExecutedStep(fp, trail(k + 3).state, env(k + 3));
    assert Here(k + 3);
  }

  lemma ReachesExecute(fp: Fingerprinter, n: Node, s: GraphState, a: Answer)
    requires n != End && n != Fault && Step(fp, n, s, a).1 == Execute && GraphInv(fp, n, s)
    ensures n == Request && a.ok && a.response.decision == Approved && Step(fp, n, s, a).0.proposal == s.proposal
  {
  }

  lemma ReachesVerify(fp: Fingerprinter, n: Node, s: GraphState, a: Answer)
    requires n != End && n != Fault && GraphInv(fp, n, s)
    requires var (t, next) := Step(fp, n, s, a); next == Verify && t.error.None? && t.decision == Some(Approved)
    ensures n == Execute && a.ok
  {
  }

  lemma ExecuteCameFrom(fp: Fingerprinter, env: nat -> Answer, trail: nat -> Stop, j: nat)
    requires Trail(fp, env, trail) && trail(j).node == Execute
    ensures j >= 3 && Shown(env, trail, j - 3) && env(j - 1).response.decision == Approved
  {
    assert j > 0;
    CameFrom(fp, env, trail, j);
    ReachesExecute(fp, trail(j - 1).node, trail(j - 1).state, env(j - 1));
    ShownPlanWasAccepted(fp, env, trail, j - 1);
  }

  /** An approved state that comes to verification without an error was carried out just before. */
  lemma ApprovedWasCarried(fp: Fingerprinter, env: nat -> Answer, trail: nat -> Stop, j: nat)
    requires Trail(fp, env, trail) && trail(j).node == Verify
    requires trail(j).state.error.None? && trail(j).state.decision == Some(Approved)
    ensures j >= 4 && Carried(env, trail, j - 4)
  {
    assert j > 0;
    CameFrom(fp, env, trail, j);
    ReachesVerify(fp, trail(j - 1).node, trail(j - 1).state, env(j - 1));
    ExecuteCameFrom(fp, env, trail, j - 1);
  }

  /** The verifying node of the run. */
  lemma VerifyIsVisited(fp: Fingerprinter, env: nat -> Answer, trail: nat -> Stop) returns (j: nat)
    requires Trail(fp, env, trail)
    ensures Whole(fp, env).executed == j + 2 && trail(j).node == Verify
    ensures Concluded(fp, trail(j).state, Whole(fp, env).state)
  {
    RunFollowsTrail(fp, env, trail);
    var e := Whole(fp, env).executed;
    assert e > 0;
    CameFrom(fp, env, trail, e);
    ReachesEnd(fp, trail(e - 1).node, trail(e - 1).state, env(e - 1));
    CameFrom(fp, env, trail, e - 1);
    ReachesFinish(fp, trail(e - 2).node, trail(e - 2).state, env(e - 2));
    j := e - 2;
    VerifyEnds(fp, env, trail, j);
  }

  lemma ReachesEnd(fp: Fingerprinter, n: Node, s: GraphState, a: Answer)
    requires n != End && n != Fault && Step(fp, n, s, a).1 == End
    ensures n == Finish
  {
  }

  lemma ReachesFinish(fp: Fingerprinter, n: Node, s: GraphState, a: Answer)
    requires n != End && n != Fault && Step(fp, n, s, a).1 == Finish
    ensures n == Verify
  {
  }

  // ------------------------------------------------------------- the four outcomes

  /** What holds at the end of a run whose plan `env(k)` was carried out. */
  ghost predicate CarriedOut(env: nat -> Answer, trail: nat -> Stop, f: Final, k: nat) {
    && Carried(env, trail, k) && f.executed == k + 6
    && f.state.proposal == Some(env(k).proposal)
    && f.state.records == ExecutionRecords(env(k).proposal.actions, env(k + 3).tools)
  }

  lemma CarriedEnds(fp: Fingerprinter, env: nat -> Answer, trail: nat -> Stop, k: nat)
    requires Trail(fp, env, trail) && Carried(env, trail, k)
    ensures CarriedOut(env, trail, Whole(fp, env), k)
    ensures Executed(fp, env, k, trail(k + 4)) && Concluded(fp, trail(k + 4).state, Whole(fp, env).state)
  {
    CarriedIsExecuted(fp, env, trail, k);
    VerifyEnds(fp, env, trail, k + 4);
  }

  lemma RecordsNeedApproval(fp: Fingerprinter, s: GraphState)
    requires GraphInv(fp, Verify, s) && s.records != []
    ensures s.error.None? && s.decision == Some(Approved)
  {
  }

  /** Nothing is ever carried out but a plan that was generated, accepted by the validating node,
      shown, and approved by the very next answers; the records are what the tools answered to it. */
  lemma RecordsComeFromApprovedPlan(fp: Fingerprinter, env: nat -> Answer, trail: nat -> Stop) returns (k: nat)
    requires Trail(fp, env, trail) && Whole(fp, env).state.records != []
    ensures CarriedOut(env, trail, Whole(fp, env), k)
  {
    var j := VerifyIsVisited(fp, env, trail);
    TrailInv(fp, env, trail, j);
    RecordsNeedApproval(fp, trail(j).state);
    ApprovedWasCarried(fp, env, trail, j);
    k := j - 4;
    CarriedEnds(fp, env, trail, k);
  }

  // ------------------------------------------------------------- the four outcomes

  /** The first `n` actions succeeded and the next one failed. */
  predicate ToolsFailAt(tools: seq<Outcome>, n: nat) {
    ToolsSucceed(tools, n) && OutcomeAt(tools, n).Failed?
  }

  lemma {:induction false} AllRecordsSucceed(actions: seq<Action>, tools: seq<Outcome>)
    ensures AllSucceeded(actions, ExecutionRecords(actions, tools)) <==> ToolsSucceed(tools, |actions|)
  {
    var records := ExecutionRecords(actions, tools);
    ExecutionRecordsShape(actions, tools);
    if StoppedAtFailure(actions, records) {
      assert OutcomeAt(tools, |records| - 1).Failed?;
    }
    if AllSucceeded(actions, records) {
      forall i: nat | i < |actions| ensures OutcomeAt(tools, i).Succeeded? {
        assert records[i].outcome == OutcomeAt(tools, i);
      }
    }
  }

  lemma StoppedRecords(actions: seq<Action>, tools: seq<Outcome>, n: nat)
    ensures (StoppedAtFailure(actions, ExecutionRecords(actions, tools)) && |ExecutionRecords(actions, tools)| == n + 1)
       <==> (n < |actions| && ToolsFailAt(tools, n))
  {
    var records := ExecutionRecords(actions, tools);
    ExecutionRecordsShape(actions, tools);
    if StoppedAtFailure(actions, records) && |records| == n + 1 {
      forall i: nat | i < n ensures OutcomeAt(tools, i).Succeeded? {
        assert records[i].outcome == OutcomeAt(tools, i);
      }
    }
    if n < |actions| && ToolsFailAt(tools, n) {
      AllRecordsSucceed(actions, tools);
      assert StoppedAtFailure(actions, records);
      var last := |records| - 1;
      assert records[last].outcome == OutcomeAt(tools, last);
      if last > n {
        assert records[n].outcome == OutcomeAt(tools, n);
      }
    }
  }

  /** The run succeeded. */
  ghost predicate SucceededRun(env: nat -> Answer, trail: nat -> Stop, k: nat) {
    Carried(env, trail, k) && ToolsSucceed(env(k + 3).tools, |env(k).proposal.actions|)
  }

  /** One of these many actions failed, and not the first. */
  predicate ToolsFailLater(tools: seq<Outcome>, count: nat) {
    exists n: nat :: 0 < n < count && ToolsFailAt(tools, n)
  }

  /** Some actions were carried out before one failed. */
  ghost predicate PartialRun(env: nat -> Answer, trail: nat -> Stop, k: nat) {
    Carried(env, trail, k) && ToolsFailLater(env(k + 3).tools, |env(k).proposal.actions|)
  }

  lemma CarriedStatus(fp: Fingerprinter, env: nat -> Answer, trail: nat -> Stop, k: nat)
    requires Trail(fp, env, trail) && Carried(env, trail, k)
    ensures Whole(fp, env).state.terminal == Some(RunSucceeded) <==> SucceededRun(env, trail, k)
    ensures Whole(fp, env).state.terminal == Some(RunPartialFailure) <==> PartialRun(env, trail, k)
    ensures Whole(fp, env).state.terminal != Some(RunRejected)
  {
    CarriedEnds(fp, env, trail, k);
    ExecutedStatus(fp, trail(k + 4).state, env(k).proposal.actions, env(k + 3).tools);
  }

  lemma ExecutedStatus(fp: Fingerprinter, s: GraphState, actions: seq<Action>, tools: seq<Outcome>)
    requires s.error.None? && Authorized(fp, s) && s.proposal.value.actions == actions
    requires s.records == ExecutionRecords(actions, tools)
    ensures var status := VerifyResult(fp, s).1;
            && (status == RunSucceeded <==> ToolsSucceed(tools, |actions|))
            && (status == RunPartialFailure <==> ToolsFailLater(tools, |actions|))
            && status != RunRejected
  {
    SucceededExactly(fp, s);
    PartialFailureExactly(fp, s);
    RejectedExactly(fp, s);
    AllRecordsSucceed(actions, tools);
    if VerifyResult(fp, s).1 == RunPartialFailure {
      StoppedRecords(actions, tools, |s.records| - 1);
    }
    forall n: nat | 0 < n < |actions| && ToolsFailAt(tools, n) ensures VerifyResult(fp, s).1 == RunPartialFailure {
      StoppedRecords(actions, tools, n);
    }
  }

  /** A finished run that was not rejected or failed had a plan carried out. */
  lemma NoFailureWasCarried(fp: Fingerprinter, env: nat -> Answer, trail: nat -> Stop) returns (k: nat)
    requires Trail(fp, env, trail)
    requires Whole(fp, env).state.terminal in {Some(RunSucceeded), Some(RunPartialFailure)}
    ensures Carried(env, trail, k)
  {
    var j := VerifyIsVisited(fp, env, trail);
    SucceededExactly(fp, trail(j).state);
    PartialFailureExactly(fp, trail(j).state);
    ApprovedWasCarried(fp, env, trail, j);
    k := j - 4;
  }

  /** When a run succeeds: exactly if some plan was generated, accepted, shown and approved in turn,
      and then every one of its actions succeeded. */
  lemma SucceedsExactly(fp: Fingerprinter, env: nat -> Answer, trail: nat -> Stop)
    requires Trail(fp, env, trail)
    ensures Whole(fp, env).state.terminal == Some(RunSucceeded) <==> exists k: nat :: SucceededRun(env, trail, k)
  {
    if Whole(fp, env).state.terminal == Some(RunSucceeded) {
      var k := NoFailureWasCarried(fp, env, trail);
      CarriedStatus(fp, env, trail, k);
    }
    forall k: nat | SucceededRun(env, trail, k) ensures Whole(fp, env).state.terminal == Some(RunSucceeded) {
      CarriedStatus(fp, env, trail, k);
    }
  }

  /** When it fails in part: exactly if such a plan's actions succeeded up to one after the first. */
  lemma FailsPartlyExactly(fp: Fingerprinter, env: nat -> Answer, trail: nat -> Stop)
    requires Trail(fp, env, trail)
    ensures Whole(fp, env).state.terminal == Some(RunPartialFailure) <==> exists k: nat :: PartialRun(env, trail, k)
  {
    if Whole(fp, env).state.terminal == Some(RunPartialFailure) {
      var k := NoFailureWasCarried(fp, env, trail);
      CarriedStatus(fp, env, trail, k);
    }
    forall k: nat | PartialRun(env, trail, k) ensures Whole(fp, env).state.terminal == Some(RunPartialFailure) {
      CarriedStatus(fp, env, trail, k);
    }
  }

  lemma TurnedDownStep(fp: Fingerprinter, s: GraphState, a: Answer)
    requires GraphInv(fp, Request, s) && a.ok
    requires a.response.decision == Rejected || (a.response.decision == RequestChanges && s.revisionCount == 2)
    ensures Step(fp, Request, s, a).1 == Verify && VerifyResult(fp, Step(fp, Request, s, a).0).1 == RunRejected
  {
  }

  lemma RejectionCameFrom(fp: Fingerprinter, n: Node, s: GraphState, a: Answer)
    requires n != End && n != Fault && GraphInv(fp, n, s) && Step(fp, n, s, a).1 == Verify
    requires VerifyResult(fp, Step(fp, n, s, a).0).1 == RunRejected
    ensures n == Request && a.ok
    ensures a.response.decision == Rejected || (a.response.decision == RequestChanges && s.revisionCount == 2)
  {
    RejectedExactly(fp, Step(fp, n, s, a).0);
  }

  /** When it is rejected: exactly if a plan that was generated, accepted and shown was turned down,
      or sent back for changes a third time. */
  lemma IsRejectedExactly(fp: Fingerprinter, env: nat -> Answer, trail: nat -> Stop)
    requires Trail(fp, env, trail)
    ensures Whole(fp, env).state.terminal == Some(RunRejected) <==> exists k: nat :: TurnedDown(env, trail, k)
  {
    if Whole(fp, env).state.terminal == Some(RunRejected) {
      var k := RejectionWasShown(fp, env, trail);
    }
    forall k: nat | TurnedDown(env, trail, k) ensures Whole(fp, env).state.terminal == Some(RunRejected) {
      TurnedDownEnds(fp, env, trail, k);
    }
  }

  lemma TurnedDownEnds(fp: Fingerprinter, env: nat -> Answer, trail: nat -> Stop, k: nat)
    requires Trail(fp, env, trail) && TurnedDown(env, trail, k)
    ensures Whole(fp, env).state.terminal == Some(RunRejected)
  {
    ShownIsReached(fp, env, trail, k);
    TrailInv(fp, env, trail, k + 2);
    TurnedDownStep(fp, trail(k + 2).state, env(k + 2));
    assert Here(k + 2);
    VerifyEnds(fp, env, trail, k + 3);
  }

  lemma AnsweredWasShown(fp: Fingerprinter, env: nat -> Answer, trail: nat -> Stop, j: nat)
    requires Trail(fp, env, trail) && trail(j).node == Request && env(j).ok
    ensures j >= 2 && Shown(env, trail, j - 2)
    ensures trail(j).state.revisionCount == trail(j - 2).state.revisionCount
  {
    ShownPlanWasAccepted(fp, env, trail, j);
    ShownIsReached(fp, env, trail, j - 2);
  }

  lemma RejectionWasShown(fp: Fingerprinter, env: nat -> Answer, trail: nat -> Stop) returns (k: nat)
    requires Trail(fp, env, trail) && Whole(fp, env).state.terminal == Some(RunRejected)
    ensures TurnedDown(env, trail, k)
  {
    var j := VerifyIsVisited(fp, env, trail);
    k := RejectionCameFromRequest(fp, env, trail, j);
  }

  lemma RejectionCameFromRequest(fp: Fingerprinter, env: nat -> Answer, trail: nat -> Stop, j: nat)
    returns (k: nat)
    requires Trail(fp, env, trail) && trail(j).node == Verify && VerifyResult(fp, trail(j).state).1 == RunRejected
    ensures TurnedDown(env, trail, k)
  {
    assert j > 0;
    CameFrom(fp, env, trail, j);
    RejectionCameFrom(fp, trail(j - 1).node, trail(j - 1).state, env(j - 1));
    AnsweredWasShown(fp, env, trail, j - 1);
    k := j - 3;
  }

  // ------------------------------------------------------------------ what went wrong

  /** The nodes that can fail, and what their failure is called. */
  function ErrorOf(n: Node): Option<WorkflowError> {
    match n
    case Analyze => Some(AnalysisFailed)
    case Load => Some(ContextFailed)
    case Generate => Some(PlanningFailed)
    case Validate => Some(PlanningFailed)
    case Request => Some(ApprovalFailed)
    case Execute => Some(ExecutionNodeFailed)
    case _ => None
  }

  lemma StepFails(fp: Fingerprinter, n: Node, s: GraphState, a: Answer)
    requires GraphInv(fp, n, s) && ErrorOf(n).Some?
    ensures var (t, next) := Step(fp, n, s, a);
            && s.error.None? && (t.error.Some? <==> !a.ok)
            && (t.error.Some? ==> t.error == ErrorOf(n) && next == Verify && t.records == [])
  {
  }

  lemma OnlyTheseFail(fp: Fingerprinter, n: Node, s: GraphState, a: Answer)
    requires GraphInv(fp, n, s) && n != End && n != Fault && Step(fp, n, s, a).1 == Verify
    ensures ErrorOf(n).Some?
  {
  }

  /** A node that raises ends the run failed, under its own name and with nothing recorded. */
  lemma FailureIsNamed(fp: Fingerprinter, env: nat -> Answer, trail: nat -> Stop, j: nat)
    requires Trail(fp, env, trail) && ErrorOf(trail(j).node).Some? && !env(j).ok
    ensures var f := Whole(fp, env);
            && f.executed == j + 3 && f.state.error == ErrorOf(trail(j).node)
            && f.state.terminal == Some(RunFailed) && f.state.records == []
  {
    TrailInv(fp, env, trail, j);
    assert Here(j);
    StepFails(fp, trail(j).node, trail(j).state, env(j));
    VerifyEnds(fp, env, trail, j + 1);
  }

  lemma VerifyCameFrom(fp: Fingerprinter, env: nat -> Answer, trail: nat -> Stop, j: nat)
    requires Trail(fp, env, trail) && trail(j + 1).node == Verify && trail(j + 1).state.error.Some?
    ensures ErrorOf(trail(j).node).Some? && !env(j).ok && trail(j + 1).state.error == ErrorOf(trail(j).node)
  {
    CameFrom(fp, env, trail, j + 1);
    OnlyTheseFail(fp, trail(j).node, trail(j).state, env(j));
    StepFails(fp, trail(j).node, trail(j).state, env(j));
  }

  /** And no other run ends with an error: the node before verification raised it. */
  lemma ErrorTells(fp: Fingerprinter, env: nat -> Answer, trail: nat -> Stop) returns (j: nat)
    requires Trail(fp, env, trail) && Whole(fp, env).state.error.Some?
    ensures Whole(fp, env).executed == j + 3
    ensures ErrorOf(trail(j).node).Some? && !env(j).ok && Whole(fp, env).state.error == ErrorOf(trail(j).node)
  {
    var k := VerifyIsVisited(fp, env, trail);
    assert k > 0;
    j := k - 1;
    VerifyCameFrom(fp, env, trail, j);
  }

  // ------------------------------------------------------------------- the counters

  /** What the generated plans reported, up to the j-th stop. */
  function Meters(env: nat -> Answer, trail: nat -> Stop, j: nat): seq<Metrics> {
    if j == 0 then []
    else Meters(env, trail, j - 1)
         + (if trail(j - 1).node == Generate && env(j - 1).ok then [env(j - 1).meter] else [])
  }

  function Rounds(meters: seq<Metrics>): seq<nat> {
    seq(|meters|, i requires 0 <= i < |meters| => meters[i].modelRounds)
  }

  function Attempts(meters: seq<Metrics>): seq<nat> {
    seq(|meters|, i requires 0 <= i < |meters| => meters[i].providerAttempts)
  }

  function ToolCalls(meters: seq<Metrics>): seq<nat> {
    seq(|meters|, i requires 0 <= i < |meters| => meters[i].toolCalls)
  }

  function Usages(meters: seq<Metrics>): seq<Usage> {
    seq(|meters|, i requires 0 <= i < |meters| => meters[i].usage)
  }

  function Latency(meters: seq<Metrics>): real {
    if meters == [] then 0.0 else Latency(meters[..|meters| - 1]) + meters[|meters| - 1].latencyMs
  }

  /** The metrics are the sums over the plans, plus one tool call for each record. */
  predicate AddsUp(metrics: Option<Metrics>, meters: seq<Metrics>, records: nat) {
    if meters == [] then metrics.None?
    else
      && metrics.Some?
      && var m := metrics.value;
         && m.modelRounds == Sum(Rounds(meters)) && m.providerAttempts == Sum(Attempts(meters))
         && m.toolCalls == Sum(ToolCalls(meters)) + records
         && m.usage == AggregateUsage(Usages(meters)) && m.latencyMs == Latency(meters)
  }

  lemma AggregateOne(u: Usage)
    ensures AggregateUsage([u]) == u
  {
    assert Inputs([u]) == [u.input] && Outputs([u]) == [u.output] && Totals([u]) == [u.total];
    KnownOne(u.input);
    KnownOne(u.output);
    KnownOne(u.total);
  }

  lemma KnownOne(value: Option<nat>)
    ensures SumKnown([value]) == value
  {
    assert Known([value]) == KnownHead(value);
    if value.Some? {
      assert Sum([value.value]) == value.value;
    }
  }

  lemma OneMore(meters: seq<Metrics>, m: Metrics)
    ensures Sum(Rounds(meters + [m])) == Sum(Rounds(meters)) + m.modelRounds
    ensures Sum(Attempts(meters + [m])) == Sum(Attempts(meters)) + m.providerAttempts
    ensures Sum(ToolCalls(meters + [m])) == Sum(ToolCalls(meters)) + m.toolCalls
    ensures AggregateUsage(Usages(meters + [m])) == MergeUsage(AggregateUsage(Usages(meters)), m.usage)
    ensures Latency(meters + [m]) == Latency(meters) + m.latencyMs
  {
    assert Rounds(meters + [m]) == Rounds(meters) + [m.modelRounds];
    assert Attempts(meters + [m]) == Attempts(meters) + [m.providerAttempts];
    assert ToolCalls(meters + [m]) == ToolCalls(meters) + [m.toolCalls];
    assert Usages(meters + [m]) == Usages(meters) + [m.usage];
    SumConcat(Rounds(meters), [m.modelRounds]);
    SumConcat(Attempts(meters), [m.providerAttempts]);
    SumConcat(ToolCalls(meters), [m.toolCalls]);
    AggregateConcat(Usages(meters), [m.usage]);
    AggregateOne(m.usage);
    assert (meters + [m])[..|meters|] == meters;
  }

  lemma MergeAddsUp(metrics: Option<Metrics>, meters: seq<Metrics>, m: Metrics)
    requires AddsUp(metrics, meters, 0)
    ensures AddsUp(Some(MergeMetrics(metrics, m)), meters + [m], 0)
  {
    OneMore(meters, m);
    if meters == [] {
      assert Sum(Rounds([])) == 0 && Sum(Attempts([])) == 0 && Sum(ToolCalls([])) == 0;
      AggregateOne(m.usage);
      assert Usages([m]) == [m.usage] && [] + [m] == [m];
    }
  }

  lemma StepAddsUp(fp: Fingerprinter, n: Node, s: GraphState, a: Answer, meters: seq<Metrics>)
    requires n != End && n != Fault && GraphInv(fp, n, s) && AddsUp(s.metrics, meters, |s.records|)
    ensures var t := Step(fp, n, s, a).0;
            AddsUp(t.metrics, meters + (if n == Generate && a.ok then [a.meter] else []), |t.records|)
  {
    if n == Generate && a.ok {
      MergeAddsUp(s.metrics, meters, a.meter);
    } else {
      assert meters + [] == meters;
    }
  }

  lemma NextAddsUp(fp: Fingerprinter, v: Stop, a: Answer, w: Stop, meters: seq<Metrics>, after: seq<Metrics>)
    requires v.node != End && v.node != Fault && GraphInv(fp, v.node, v.state) && w == Next(fp, v, a)
    requires AddsUp(v.state.metrics, meters, |v.state.records|)
    requires after == meters + (if v.node == Generate && a.ok then [a.meter] else [])
    ensures AddsUp(w.state.metrics, after, |w.state.records|)
  {
    StepAddsUp(fp, v.node, v.state, a, meters);
  }

  ghost predicate Counted(env: nat -> Answer, trail: nat -> Stop, j: nat) {
    AddsUp(trail(j).state.metrics, Meters(env, trail, j), |trail(j).state.records|)
  }

  lemma MetersGrow(env: nat -> Answer, trail: nat -> Stop, j: nat)
    ensures Meters(env, trail, j + 1)
         == Meters(env, trail, j) + (if trail(j).node == Generate && env(j).ok then [env(j).meter] else [])
  {
  }

  lemma CountedNext(fp: Fingerprinter, env: nat -> Answer, trail: nat -> Stop, j: nat)
    requires trail(j + 1) == Next(fp, trail(j), env(j)) && GraphInv(fp, trail(j).node, trail(j).state)
    requires trail(j).node != End && trail(j).node != Fault && Counted(env, trail, j)
    ensures Counted(env, trail, j + 1)
  {
    MetersGrow(env, trail, j);
    NextAddsUp(fp, trail(j), env(j), trail(j + 1), Meters(env, trail, j), Meters(env, trail, j + 1));
  }

  lemma TrailCountsNext(fp: Fingerprinter, env: nat -> Answer, trail: nat -> Stop, i: nat)
    requires Trail(fp, env, trail) && trail(i).node != End && Counted(env, trail, i)
    ensures Counted(env, trail, i + 1)
  {
    TrailInv(fp, env, trail, i);
    assert Here(i);
    CountedNext(fp, env, trail, i);
  }

  lemma CountedFirst(fp: Fingerprinter, env: nat -> Answer, trail: nat -> Stop)
    requires trail(0) == Stop(Analyze, INITIAL_STATE)
    ensures Counted(env, trail, 0)
  {
  }

  lemma {:induction false} TrailAddsUp(fp: Fingerprinter, env: nat -> Answer, trail: nat -> Stop, j: nat)
    requires Trail(fp, env, trail) && (j > 0 ==> trail(j - 1).node != End)
    ensures Counted(env, trail, j)
  {
    if j == 0 {
      CountedFirst(fp, env, trail);
    } else {
      if j > 1 {
        CameFrom(fp, env, trail, j - 1);
      }
      TrailAddsUp(fp, env, trail, j - 1);
      TrailCountsNext(fp, env, trail, j - 1);
    }
  }

  /** What the sums over the plans make of the run row. */
  function SumCounters(meters: seq<Metrics>, records: nat): Counters {
    Counters(Effort(Sum(Rounds(meters)), Sum(Attempts(meters)), Sum(ToolCalls(meters)) + records),
             Tokens(ZeroFilled(Inputs(Usages(meters))), ZeroFilled(Outputs(Usages(meters))),
                    ZeroFilled(Totals(Usages(meters)))),
             Latency(meters))
  }

  lemma PersistedAddsUp(metrics: Option<Metrics>, meters: seq<Metrics>, records: nat)
    requires AddsUp(metrics, meters, records) && metrics.Some?
    ensures PersistedCounters(metrics.value) == SumCounters(meters, records)
  {
    var usages := Usages(meters);
    SumKnownZeroFilled(Inputs(usages));
    SumKnownZeroFilled(Outputs(usages));
    SumKnownZeroFilled(Totals(usages));
  }

  /** What the run row counts: rounds, attempts, latency and tokens of every plan that was generated,
      whether or not it was accepted, and the tool calls of the plan that was carried out. A token
      counter that no response reported is zero. */
  lemma CountersAreSums(fp: Fingerprinter, env: nat -> Answer, trail: nat -> Stop)
    requires Trail(fp, env, trail)
    ensures var f := Whole(fp, env);
            var meters := Meters(env, trail, f.executed);
            && (f.state.metrics.None? <==> meters == [])
            && (f.state.metrics.Some? ==>
                  PersistedCounters(f.state.metrics.value) == SumCounters(meters, |f.state.records|))
  {
    RunFollowsTrail(fp, env, trail);
    var f := Whole(fp, env);
    assert f.executed > 0;
    TrailAddsUp(fp, env, trail, f.executed);
    if f.state.metrics.Some? {
      PersistedAddsUp(f.state.metrics, Meters(env, trail, f.executed), |f.state.records|);
    }
  }
}
