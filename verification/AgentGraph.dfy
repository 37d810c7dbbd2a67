/** The compiled graph: routes between the nodes, complete runs, termination and the
    truthfulness of the reported outcome. */
module AgentGraph {
  import opened Options
  import opened AgentState
  import opened AgentNodes

  const RECURSION_LIMIT: nat := 16

  /** Where a run stands: the node to execute next, the end, or an uncaught exception. */
  datatype Node =
    Analyze | Load | Generate | Validate | Request | Execute | Verify | Finish | End | Fault

  function ContinueOrVerify(s: GraphState, next: Node): Node {
    if s.error.Some? then Verify else next
  }

  function RouteValidation(s: GraphState): Node {
    if s.error.Some? then Verify
    else if s.validation.None? || !s.validation.value.Valid? then Verify
    else Request
  }

  function RouteApproval(s: GraphState): Node {
    if s.error.Some? then Verify
    else match s.decision
      case Some(Approved) => Execute
      case Some(RequestChanges) => Generate
      case Some(Rejected) => Verify
      case None => Fault
  }

  /** Execute one node and merge its update; the second component is the next node. */
  function Step(fp: Fingerprinter, n: Node, s: GraphState, a: Answer): (GraphState, Node) {
    match n
    case Analyze => var t := AnalyzeGoal(s, a); (t, ContinueOrVerify(t, Load))
    case Load => var t := LoadContext(s, a); (t, ContinueOrVerify(t, Generate))
    case Generate => var t := GeneratePlan(s, a); (t, ContinueOrVerify(t, Validate))
    case Validate => var t := ValidatePlan(fp, s, a); (t, RouteValidation(t))
    case Request => var t := RequestApproval(fp, s, a); (t, RouteApproval(t))
    case Execute => (ExecuteTasks(fp, s, a), Verify)
    case Verify => (VerifyNode(fp, s), Finish)
    case Finish =>
      var output := Summarize(fp, s);
      if output.None? then (s, Fault)
      else (s.(terminal := Some(output.value.status), summary := Some(output.value.summary)), End)
    case End => (s, End)
    case Fault => (s, Fault)
  }

  /** How many more nodes can execute: the position in the graph and the revisions left. */
  function Rank(n: Node, revisionCount: nat): nat {
    var left := if revisionCount >= MAX_PLAN_REVISIONS then 0 else MAX_PLAN_REVISIONS - revisionCount;
    match n
    case Analyze => 8 + 3 * left
    case Load => 7 + 3 * left
    case Generate => 6 + 3 * left
    case Validate => 5 + 3 * left
    case Request => 4 + 3 * left
    case Execute => 3
    case Verify => 2
    case Finish => 1
    case End => 0
    case Fault => 0
  }

  datatype Final = Final(state: GraphState, node: Node, executed: nat)

  /** A whole run; `env(k)` answers the k-th executed node. */
  function RunGraph(fp: Fingerprinter, n: Node, s: GraphState, env: nat -> Answer, k: nat): (f: Final)
    ensures f.node == End || f.node == Fault
    ensures k <= f.executed <= k + Rank(n, s.revisionCount)
    decreases Rank(n, s.revisionCount)
  {
    if n == End || n == Fault then Final(s, n, k)
    else
      var (t, next) := Step(fp, n, s, env(k));
      RunGraph(fp, next, t, env, k + 1)
  }

  // --------------------------------------------------------------- invariant

  /** Nothing has been executed, verified or failed yet. */
  predicate Unfinished(s: GraphState) {
    s.records == [] && s.verification.None? && s.terminal.None? && s.error.None?
  }

  /** The records the execution node leaves behind. */
  predicate ExecutedShape(actions: seq<Action>, records: seq<Record>) {
    AllSucceeded(actions, records) || StoppedAtFailure(actions, records)
  }

  /** What holds of the merged state whenever `n` is the next node. */
  predicate GraphInv(fp: Fingerprinter, n: Node, s: GraphState) {
    && s.revisionCount <= MAX_PLAN_REVISIONS
    && match n
       case Analyze => Unfinished(s) && s.decision.None?
       case Load => Unfinished(s) && s.decision.None? && s.analysis.Some?
       case Generate => Unfinished(s) && s.analysis.Some? && s.context.Some? && NotApproved(s)
       case Validate =>
         Unfinished(s) && s.analysis.Some? && s.context.Some? && s.proposal.Some? && NotApproved(s)
       case Request => Unfinished(s) && s.analysis.Some? && s.context.Some? && Bound(fp, s) && NotApproved(s)
       case Execute => Unfinished(s) && Authorized(fp, s)
       case Verify =>
         && s.verification.None?
         && (s.terminal.None? || (s.terminal == Some(RunRejected) && s.decision == Some(Rejected)
                                  && s.error.None? && s.records == [] && BoundApproval(fp, s)))
         && Settled(fp, s)
       case Finish => Reported(fp, s) && Settled(fp, s)
       case End => Reported(fp, s) && Settled(fp, s)
       case Fault => false
  }

  predicate NotApproved(s: GraphState) {
    s.decision.None? || s.decision == Some(RequestChanges)
  }

  /** Once the approval loop is left, records exist only for an approved, executed proposal. */
  predicate Settled(fp: Fingerprinter, s: GraphState) {
    && (s.records != [] ==> s.error.None?)
    && (s.records != [] ==> Authorized(fp, s))
    && (s.error.None? && s.decision == Some(Approved) ==>
          Authorized(fp, s) && ExecutedShape(s.proposal.value.actions, s.records))
    && (s.decision == Some(Approved) ==> BoundApproval(fp, s))
    && (s.error.None? && s.decision == Some(Rejected) ==> BoundApproval(fp, s))
  }

  predicate Reported(fp: Fingerprinter, s: GraphState) {
    && s.verification == Some(VerifyResult(fp, s).0)
    && s.terminal == Some(VerifyResult(fp, s).1)
  }

  lemma PlanningKeepsInv(fp: Fingerprinter, n: Node, s: GraphState, a: Answer)
    requires GraphInv(fp, n, s) && (n == Analyze || n == Load || n == Generate || n == Validate)
    ensures var (t, next) := Step(fp, n, s, a); GraphInv(fp, next, t)
  {
  }

  lemma RequestKeepsInv(fp: Fingerprinter, s: GraphState, a: Answer)
    requires GraphInv(fp, Request, s)
    ensures GraphInv(fp, RouteApproval(RequestApproval(fp, s, a)), RequestApproval(fp, s, a))
  {
  }

  lemma ExecuteKeepsInv(fp: Fingerprinter, s: GraphState, a: Answer)
    requires GraphInv(fp, Execute, s)
    ensures GraphInv(fp, Verify, ExecuteTasks(fp, s, a))
  {
    ExecutionRecordsShape(s.proposal.value.actions, a.tools);
  }

  lemma VerifyKeepsInv(fp: Fingerprinter, s: GraphState)
    requires GraphInv(fp, Verify, s)
    ensures GraphInv(fp, Finish, VerifyNode(fp, s))
  {
  }

  lemma FinishKeepsInv(fp: Fingerprinter, s: GraphState, a: Answer)
    requires GraphInv(fp, Finish, s)
    ensures var (t, next) := Step(fp, Finish, s, a); GraphInv(fp, next, t)
  {
    SummarizeNeverRejects(fp, s);
  }

  /** Every node and its route keep the invariant, whatever the outside answers. */
  lemma StepPreservesInv(fp: Fingerprinter, n: Node, s: GraphState, a: Answer)
    requires GraphInv(fp, n, s)
    ensures var (t, next) := Step(fp, n, s, a); GraphInv(fp, next, t)
  {
    match n {
      case Request => RequestKeepsInv(fp, s, a);
      case Execute => ExecuteKeepsInv(fp, s, a);
      case Verify => VerifyKeepsInv(fp, s);
      case Finish => FinishKeepsInv(fp, s, a);
      case End =>
      case _ => PlanningKeepsInv(fp, n, s, a);
    }
  }

  /** The summarizing node accepts every state that the graph can bring to it. */
  lemma SummarizeNeverRejects(fp: Fingerprinter, s: GraphState)
    requires GraphInv(fp, Finish, s) || GraphInv(fp, End, s)
    ensures Summarize(fp, s).Some?
    ensures Summarize(fp, s).value.status == s.terminal.value
  {
  }

  /** Points the verifier at one node of a run. */
  predicate AtNode(n: Node, s: GraphState, k: nat) {
    true
  }

  lemma RunUnfolds(fp: Fingerprinter, n: Node, s: GraphState, env: nat -> Answer, k: nat)
    requires n != End && n != Fault
    ensures var (t, next) := Step(fp, n, s, env(k));
            RunGraph(fp, n, s, env, k) == RunGraph(fp, next, t, env, k + 1)
  {
  }

  /** Every node lowers the rank. */
  lemma RankFalls(fp: Fingerprinter, n: Node, s: GraphState, a: Answer)
    requires n != End && n != Fault
    ensures var (t, next) := Step(fp, n, s, a); Rank(next, t.revisionCount) < Rank(n, s.revisionCount)
  {
  }

  /** What holds before a run and is kept by every node holds at its end. */
  lemma {:induction false} RunInduction(fp: Fingerprinter, n: Node, s: GraphState, env: nat -> Answer, k: nat,
                                        good: (Node, GraphState, nat) -> bool)
    requires good(n, s, k)
    requires forall m: Node, u: GraphState, j: nat {:trigger AtNode(m, u, j)} ::
               AtNode(m, u, j) && m != End && m != Fault && good(m, u, j) ==>
                 var (t, next) := Step(fp, m, u, env(j)); good(next, t, j + 1)
    ensures var f := RunGraph(fp, n, s, env, k); good(f.node, f.state, f.executed)
    decreases Rank(n, s.revisionCount)
  {
    if n != End && n != Fault {
      assert AtNode(n, s, k);
      RunUnfolds(fp, n, s, env, k);
      RankFalls(fp, n, s, env(k));
      var (t, next) := Step(fp, n, s, env(k));
      RunInduction(fp, next, t, env, k + 1, good);
    }
  }

  lemma RunKeepsInv(fp: Fingerprinter, n: Node, s: GraphState, env: nat -> Answer, k: nat)
    requires GraphInv(fp, n, s)
    ensures var f := RunGraph(fp, n, s, env, k); f.node == End && GraphInv(fp, End, f.state)
  {
    var good := (m: Node, u: GraphState, j: nat) => GraphInv(fp, m, u);
    forall m: Node, u: GraphState, j: nat {:trigger AtNode(m, u, j)} | m != End && m != Fault && good(m, u, j)
      ensures var (t, next) := Step(fp, m, u, env(j)); good(next, t, j + 1)
    {
      StepPreservesInv(fp, m, u, env(j));
    }
    RunInduction(fp, n, s, env, k, good);
  }

  // ------------------------------------------------------------- main results

  /** For every provider, approver and tool behaviour: at most 14 nodes execute, fewer than the
      recursion limit, and the run ends after the summarizing node without an exception. */
  lemma GraphTerminates(fp: Fingerprinter, env: nat -> Answer)
    ensures var f := RunGraph(fp, Analyze, INITIAL_STATE, env, 0);
            && f.node == End
            && f.executed <= 14 < RECURSION_LIMIT
            && f.state.summary.Some?
            && Summarize(fp, f.state).Some?
  {
    RunKeepsInv(fp, Analyze, INITIAL_STATE, env, 0);
    EndIsSummarized(fp, Analyze, INITIAL_STATE, env, 0);
    SummarizeNeverRejects(fp, RunGraph(fp, Analyze, INITIAL_STATE, env, 0).state);
  }

  lemma EndIsSummarized(fp: Fingerprinter, n: Node, s: GraphState, env: nat -> Answer, k: nat)
    requires n != End
    ensures var f := RunGraph(fp, n, s, env, k); f.node == End ==> f.state.summary.Some?
  {
    var good := (m: Node, u: GraphState, j: nat) => m == End ==> u.summary.Some?;
    forall m: Node, u: GraphState, j: nat {:trigger AtNode(m, u, j)} | m != End && m != Fault
      ensures var (t, next) := Step(fp, m, u, env(j)); good(next, t, j + 1)
    {
      OnlySummariesEnd(fp, m, u, env(j));
    }
    RunInduction(fp, n, s, env, k, good);
  }

  lemma OnlySummariesEnd(fp: Fingerprinter, n: Node, s: GraphState, a: Answer)
    requires n != End
    ensures var (t, next) := Step(fp, n, s, a); next == End ==> t.summary.Some?
  {
  }

  /** An approver who asks for changes twice and then approves drives exactly 14 nodes. */
  lemma FourteenNodesAreReached(fp: Fingerprinter, a: Answer)
    requires a.ok && a.planAccepted
    ensures exists env: nat -> Answer :: RunGraph(fp, Analyze, INITIAL_STATE, env, 0).executed == 14
  {
    var again := a.(response := Response(RequestChanges, Some("again")));
    var accept := a.(response := Response(Approved, None));
    var env := (k: nat) => if k <= 8 then again else accept;
    var run := (n: Node, s: GraphState, k: nat) => RunGraph(fp, n, s, env, k);
    RunKeepsInv(fp, Analyze, INITIAL_STATE, env, 0);
    forall n: Node, s: GraphState, k: nat {:trigger AtNode(n, s, k)} | n != End && n != Fault
      ensures var (t, next) := Step(fp, n, s, env(k)); run(n, s, k) == run(next, t, k + 1)
    {
      RunUnfolds(fp, n, s, env, k);
    }
    ThreeRounds(fp, INITIAL_STATE, env, run);
  }

  /** `run` goes from node to node as the graph does. */
  ghost predicate FollowsGraph(fp: Fingerprinter, env: nat -> Answer, run: (Node, GraphState, nat) -> Final) {
    forall n: Node, s: GraphState, k: nat {:trigger AtNode(n, s, k)} :: AtNode(n, s, k) ==>
      if n == End || n == Fault then run(n, s, k) == Final(s, n, k)
      else var (t, next) := Step(fp, n, s, env(k)); run(n, s, k) == run(next, t, k + 1)
  }

  lemma ThreeRounds(fp: Fingerprinter, s: GraphState, env: nat -> Answer, run: (Node, GraphState, nat) -> Final)
    requires FollowsGraph(fp, env, run) && Unfinished(s) && s.revisionCount == 0 && run(Analyze, s, 0).node == End
    requires forall k: nat :: env(k).ok && env(k).planAccepted
    requires env(4).response.decision == env(7).response.decision == RequestChanges
    requires env(10).response.decision == Approved
    ensures run(Analyze, s, 0).executed == 14
  {
    var s1 := TwoNodes(fp, s, env, run, 0);
    var s2 := OneRound(fp, s1, env, run, 2);
    var s3 := OneRound(fp, s2, env, run, 5);
    var s4 := PlanRound(fp, s3, env, run, 8);
    LastNodes(fp, s4, env, run, 10);
  }

  /** A state that is ready for a plan. */
  predicate ReadyToPlan(s: GraphState) {
    Unfinished(s) && s.analysis.Some? && s.context.Some?
  }

  lemma TwoNodes(fp: Fingerprinter, s: GraphState, env: nat -> Answer, run: (Node, GraphState, nat) -> Final, k: nat)
    returns (t: GraphState)
    requires FollowsGraph(fp, env, run) && Unfinished(s) && env(k).ok && env(k + 1).ok
    ensures ReadyToPlan(t) && t.revisionCount == s.revisionCount
    ensures run(Analyze, s, k) == run(Generate, t, k + 2)
  {
    assert AtNode(Analyze, s, k);
    var u := AnalyzeGoal(s, env(k));
    assert AtNode(Load, u, k + 1);
    t := LoadContext(u, env(k + 1));
  }

  /** A plan is generated and validated. */
  lemma PlanRound(fp: Fingerprinter, s: GraphState, env: nat -> Answer, run: (Node, GraphState, nat) -> Final, k: nat)
    returns (t: GraphState)
    requires FollowsGraph(fp, env, run) && ReadyToPlan(s) && env(k).ok && env(k + 1).ok && env(k + 1).planAccepted
    ensures ReadyToPlan(t) && Bound(fp, t) && t.revisionCount == s.revisionCount
    ensures run(Generate, s, k) == run(Request, t, k + 2)
  {
    assert AtNode(Generate, s, k);
    var u := GeneratePlan(s, env(k));
    assert AtNode(Validate, u, k + 1);
    t := ValidatePlan(fp, u, env(k + 1));
  }

  lemma OneRound(fp: Fingerprinter, s: GraphState, env: nat -> Answer, run: (Node, GraphState, nat) -> Final, k: nat)
    returns (t: GraphState)
    requires FollowsGraph(fp, env, run) && ReadyToPlan(s) && s.revisionCount < MAX_PLAN_REVISIONS
    requires forall j :: k <= j < k + 3 ==> env(j).ok && env(j).planAccepted
    requires env(k + 2).response.decision == RequestChanges
    ensures ReadyToPlan(t) && t.revisionCount == s.revisionCount + 1
    ensures run(Generate, s, k) == run(Generate, t, k + 3)
  {
    var u := PlanRound(fp, s, env, run, k);
    assert AtNode(Request, u, k + 2);
    t := RequestApproval(fp, u, env(k + 2));
  }

  /** An approved plan takes four more nodes. */
  lemma LastNodes(fp: Fingerprinter, s: GraphState, env: nat -> Answer, run: (Node, GraphState, nat) -> Final, k: nat)
    requires FollowsGraph(fp, env, run) && Bound(fp, s) && Unfinished(s)
    requires env(k).ok && env(k).response.decision == Approved && run(Request, s, k).node == End
    ensures run(Request, s, k).executed == k + 4
  {
    assert AtNode(Request, s, k);
    var t := RequestApproval(fp, s, env(k));
    assert AtNode(Execute, t, k + 1);
    var u := ExecuteTasks(fp, t, env(k + 1));
    assert AtNode(Verify, u, k + 2);
    LastTwo(fp, VerifyNode(fp, u), env, run, k + 3);
  }

  lemma LastTwo(fp: Fingerprinter, s: GraphState, env: nat -> Answer, run: (Node, GraphState, nat) -> Final, k: nat)
    requires FollowsGraph(fp, env, run) && run(Finish, s, k).node == End
    ensures run(Finish, s, k).executed == k + 1
  {
    assert AtNode(Finish, s, k);
    var (t, next) := Step(fp, Finish, s, env(k));
    assert AtNode(next, t, k + 1);
  }

  /** Some answer among the first `k` is an approval. */
  ghost predicate SomeApproval(env: nat -> Answer, k: nat) {
    exists i: nat :: i < k && env(i).ok && env(i).response.decision == Approved
  }

  /** The records are what the tools answered to some node among the first `k`. */
  ghost predicate RecordsAnswered(env: nat -> Answer, k: nat, s: GraphState) {
    && s.proposal.Some?
    && exists i: nat :: i < k && s.records == ExecutionRecords(s.proposal.value.actions, env(i).tools)
  }

  /** What the answers of a run up to node `k` say about its state. */
  ghost predicate Witnessed(env: nat -> Answer, k: nat, s: GraphState) {
    && (s.decision == Some(Approved) ==> SomeApproval(env, k))
    && (s.records != [] ==> RecordsAnswered(env, k, s))
  }

  lemma StepIsWitnessed(fp: Fingerprinter, n: Node, s: GraphState, env: nat -> Answer, k: nat)
    requires GraphInv(fp, n, s) && Witnessed(env, k, s)
    ensures Witnessed(env, k + 1, Step(fp, n, s, env(k)).0)
  {
    var t := Step(fp, n, s, env(k)).0;
    assert k < k + 1;
    if t.decision == Some(Approved) && s.decision == Some(Approved) {
      var i: nat :| i < k && env(i).ok && env(i).response.decision == Approved;
      assert i < k + 1;
    }
    if s.records != [] {
      var i: nat :| i < k && s.records == ExecutionRecords(s.proposal.value.actions, env(i).tools);
      assert i < k + 1;
      assert t.records == s.records && t.proposal == s.proposal;
    }
  }

  lemma RunIsWitnessed(fp: Fingerprinter, n: Node, s: GraphState, env: nat -> Answer, k: nat)
    requires GraphInv(fp, n, s) && Witnessed(env, k, s)
    ensures var f := RunGraph(fp, n, s, env, k); Witnessed(env, f.executed, f.state)
  {
    var good := (m: Node, u: GraphState, j: nat) => GraphInv(fp, m, u) && Witnessed(env, j, u);
    forall m: Node, u: GraphState, j: nat {:trigger AtNode(m, u, j)} | m != End && m != Fault && good(m, u, j)
      ensures var (t, next) := Step(fp, m, u, env(j)); good(next, t, j + 1)
    {
      StepPreservesInv(fp, m, u, env(j));
      StepIsWitnessed(fp, m, u, env, j);
    }
    RunInduction(fp, n, s, env, k, good);
  }

  /** The truthful outcome of every complete run: each terminal status is reported exactly when
      the approval and the tool outcomes justify it. */
  lemma TruthfulOutcome(fp: Fingerprinter, env: nat -> Answer)
    ensures var f := RunGraph(fp, Analyze, INITIAL_STATE, env, 0);
            var s := f.state;
            && (s.terminal == Some(RunSucceeded) <==>
                  s.error.None? && Authorized(fp, s)
                  && AllSucceeded(s.proposal.value.actions, s.records))
            && (s.terminal == Some(RunPartialFailure) <==>
                  s.error.None? && Authorized(fp, s) && |s.records| >= 2
                  && StoppedAtFailure(s.proposal.value.actions, s.records))
            && (s.terminal == Some(RunRejected) <==>
                  s.error.None? && BoundApproval(fp, s) && s.decision == Some(Rejected))
            && (s.terminal == Some(RunRejected) ==> s.records == [])
            && (s.terminal == Some(RunSucceeded) ==> SomeApproval(env, f.executed))
            && (s.records != [] ==> RecordsAnswered(env, f.executed, s))
  {
    RunKeepsInv(fp, Analyze, INITIAL_STATE, env, 0);
    RunIsWitnessed(fp, Analyze, INITIAL_STATE, env, 0);
    var s := RunGraph(fp, Analyze, INITIAL_STATE, env, 0).state;
    SucceededExactly(fp, s);
    PartialFailureExactly(fp, s);
    RejectedExactly(fp, s);
  }
}
