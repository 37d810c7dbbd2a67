/** The eight workflow nodes as state transformers, over every answer that the provider,
    the approver and the tools may give. */
module AgentNodes {
  import opened Options
  import opened RunMetrics
  import opened AgentState

  /** What the outside world answers while one node runs. A node reads the part it asks for.
      `ok` is false when some call inside the node raises. */
  datatype Answer = Answer(
    ok: bool,
    text: string,
    proposal: Proposal,
    meter: Metrics,
    planAccepted: bool,
    response: Response,
    tools: seq<Outcome>)

  // ---------------------------------------------------------------- bindings

  /** The current proposal has been validated at the current revision. */
  predicate Bound(fp: Fingerprinter, s: GraphState) {
    && s.proposal.Some?
    && s.validation == Some(Valid(s.revisionCount, fp(s.proposal.value)))
  }

  /** The recorded approval names exactly the current revision and proposal. */
  predicate BoundApproval(fp: Fingerprinter, s: GraphState) {
    && Bound(fp, s)
    && s.approvalRevision == Some(s.revisionCount)
    && s.approvalFingerprint == Some(fp(s.proposal.value))
  }

  predicate Authorized(fp: Fingerprinter, s: GraphState) {
    BoundApproval(fp, s) && s.decision == Some(Approved)
  }

  // ------------------------------------------------------------------- nodes

  function Fail(s: GraphState, e: WorkflowError): GraphState {
    s.(error := Some(e))
  }

  function AnalyzeGoal(s: GraphState, a: Answer): GraphState {
    if a.ok then s.(analysis := Some(a.text)) else Fail(s, AnalysisFailed)
  }

  function LoadContext(s: GraphState, a: Answer): GraphState {
    if s.analysis.Some? && a.ok then s.(context := Some(a.text)) else Fail(s, ContextFailed)
  }

  function GeneratePlan(s: GraphState, a: Answer): GraphState {
    if s.analysis.Some? && s.context.Some? && a.ok
    then s.(proposal := Some(a.proposal), metrics := Some(MergeMetrics(s.metrics, a.meter)))
    else Fail(s, PlanningFailed)
  }

  function ValidatePlan(fp: Fingerprinter, s: GraphState, a: Answer): GraphState {
    if !a.ok then Fail(s, PlanningFailed)
    else if s.analysis.None? || s.context.None? || s.proposal.None? || !a.planAccepted
    then s.(validation := Some(Invalid(s.revisionCount)))
    else s.(validation := Some(Valid(s.revisionCount, fp(s.proposal.value))))
  }

  /** Record one decision about the proposal with the given fingerprint. A request for
      changes beyond the last allowed revision is a rejection. */
  function ApplyResponse(s: GraphState, r: Response, fingerprint: Fingerprint): GraphState {
    if r.decision == RequestChanges then
      if s.revisionCount >= MAX_PLAN_REVISIONS then
        s.(decision := Some(Rejected), feedback := None,
           approvalRevision := Some(s.revisionCount), approvalFingerprint := Some(fingerprint),
           terminal := Some(RunRejected), summary := Some(RevisionLimitReached))
      else
        s.(decision := Some(RequestChanges), feedback := r.feedback,
           approvalRevision := None, approvalFingerprint := None,
           revisionCount := s.revisionCount + 1, proposal := None, validation := None)
    else
      var decided := s.(decision := Some(r.decision), feedback := None,
                        approvalRevision := Some(s.revisionCount),
                        approvalFingerprint := Some(fingerprint));
      if r.decision == Rejected then decided.(terminal := Some(RunRejected)) else decided
  }

  function RequestApproval(fp: Fingerprinter, s: GraphState, a: Answer): GraphState {
    if Bound(fp, s) && a.ok
    then ApplyResponse(s, a.response, fp(s.proposal.value))
    else Fail(s, ApprovalFailed)
  }

  /** The state after the execution node recorded these outcomes. */
  function FinishExecution(s: GraphState, records: seq<Record>): GraphState {
    s.(records := records,
       metrics := match s.metrics
                  case None => None
                  case Some(m) => Some(m.(toolCalls := m.toolCalls + |records|)))
  }

  function OutcomeAt(outcomes: seq<Outcome>, i: nat): Outcome {
    if i < |outcomes| then outcomes[i] else Failed(OtherError)
  }

  function RecordOf(action: Action, outcome: Outcome): Record {
    Record(action.key, action.tool, outcome)
  }

  /** Attempt the actions in order and stop after the first failure. */
  function ExecutionRecords(actions: seq<Action>, outcomes: seq<Outcome>): seq<Record> {
    if actions == [] then []
    else
      var first := OutcomeAt(outcomes, 0);
      if first.Failed? then [RecordOf(actions[0], first)]
      else [RecordOf(actions[0], first)]
           + ExecutionRecords(actions[1..], if outcomes == [] then [] else outcomes[1..])
  }

  function ExecuteTasks(fp: Fingerprinter, s: GraphState, a: Answer): GraphState {
    if Authorized(fp, s) && a.ok
    then FinishExecution(s, ExecutionRecords(s.proposal.value.actions, a.tools))
    else Fail(s, ExecutionNodeFailed)
  }

  // ------------------------------------------------------------ verification

  function Keys(records: seq<Record>): set<string> {
    set r | r in records :: r.key
  }

  predicate RecordsFollow(actions: seq<Action>, records: seq<Record>) {
    forall i :: 0 <= i < |records| && i < |actions| ==>
      records[i].key == actions[i].key && records[i].tool == actions[i].tool
  }

  function FailureIndexes(records: seq<Record>, from: nat): seq<nat>
    requires from <= |records|
    decreases |records| - from
  {
    if from == |records| then []
    else (if records[from].outcome.Failed? then [from] else []) + FailureIndexes(records, from + 1)
  }

  function InvalidResult(checked: nat): (Verification, TerminalStatus) {
    (Verification(VerificationFailed, checked, Some(ResultInvalid)), RunFailed)
  }

  function VerifyResult(fp: Fingerprinter, s: GraphState): (Verification, TerminalStatus) {
    if s.error.Some? then
      (Verification(VerificationFailed, |s.records|, Some(WorkflowFailed)), RunFailed)
    else if !BoundApproval(fp, s) then InvalidResult(0)
    else if s.decision == Some(Rejected) then
      if s.records != [] then InvalidResult(|s.records|)
      else (Verification(VerifiedRejection, 0, None), RunRejected)
    else if s.decision != Some(Approved) then InvalidResult(0)
    else
      var actions := s.proposal.value.actions;
      var failures := FailureIndexes(s.records, 0);
      if |s.records| > |actions| then InvalidResult(|s.records|)
      else if |Keys(s.records)| != |s.records| then InvalidResult(|s.records|)
      else if !RecordsFollow(actions, s.records) then InvalidResult(|s.records|)
      else if |failures| > 1 then InvalidResult(|s.records|)
      else if |failures| == 1 then
        if failures[0] != |s.records| - 1 then InvalidResult(|s.records|)
        else (Verification(VerificationFailed, |s.records|, Some(ExecutionFailed)),
              if failures[0] > 0 then RunPartialFailure else RunFailed)
      else if |s.records| != |actions| then InvalidResult(|s.records|)
      else if actions == [] then (Verification(NoAction, 0, None), RunSucceeded)
      else (Verification(Verified, |s.records|, None), RunSucceeded)
  }

  function VerifyNode(fp: Fingerprinter, s: GraphState): GraphState {
    var (verification, terminal) := VerifyResult(fp, s);
    s.(verification := Some(verification), terminal := Some(terminal))
  }

  function SummaryOf(s: GraphState, v: Verification, t: TerminalStatus): Summary {
    if v.error == Some(ResultInvalid) then VerificationInvalid
    else match t
      case RunRejected => PlanRejected
      case RunSucceeded =>
        if v.status == NoAction then NoChangesRequired else ActionsCompleted(v.checkedActions)
      case RunPartialFailure =>
        PartiallyCompleted(v.checkedActions - 1,
                           if s.proposal.Some? then |s.proposal.value.actions| else 0)
      case RunFailed => FailedSafely
  }

  /** The public output, or nothing when the stored verification does not match the state. */
  function Summarize(fp: Fingerprinter, s: GraphState): Option<Output> {
    var (verification, terminal) := VerifyResult(fp, s);
    if s.verification != Some(verification) || s.terminal != Some(terminal) then None
    else
      var shown := verification.error != Some(ResultInvalid)
                     && verification.error != Some(WorkflowFailed);
      Some(Output(terminal,
                  if s.proposal.Some? && shown then Some(s.proposal.value.plan) else None,
                  SummaryOf(s, verification, terminal),
                  if shown then s.records else [],
                  s.metrics))
  }

  // ------------------------------------------- what verification classifies

  /** Every action has a success record, in order. */
  predicate AllSucceeded(actions: seq<Action>, records: seq<Record>) {
    && |records| == |actions|
    && forall i :: 0 <= i < |records| ==>
         records[i].key == actions[i].key && records[i].tool == actions[i].tool
         && records[i].outcome.Succeeded?
  }

  /** The records of a prefix of the actions: successes, then exactly one failure. */
  predicate StoppedAtFailure(actions: seq<Action>, records: seq<Record>) {
    && 0 < |records| <= |actions|
    && records[|records| - 1].outcome.Failed?
    && forall i :: 0 <= i < |records| ==>
         records[i].key == actions[i].key && records[i].tool == actions[i].tool
         && (i < |records| - 1 ==> records[i].outcome.Succeeded?)
  }

  predicate SucceedFrom(records: seq<Record>, from: nat, until: nat) {
    forall i :: from <= i < until && i < |records| ==> records[i].outcome.Succeeded?
  }

  lemma {:induction false} NoFailureIndex(records: seq<Record>, from: nat)
    requires from <= |records|
    ensures FailureIndexes(records, from) == [] <==> SucceedFrom(records, from, |records|)
    decreases |records| - from
  {
    if from < |records| {
      NoFailureIndex(records, from + 1);
    }
  }

  lemma {:induction false} OneFailureIndex(records: seq<Record>, from: nat, j: nat)
    requires from <= |records|
    ensures FailureIndexes(records, from) == [j] <==>
              from <= j < |records| && records[j].outcome.Failed?
              && SucceedFrom(records, from, j) && SucceedFrom(records, j + 1, |records|)
    decreases |records| - from
  {
    if from < |records| {
      var rest := FailureIndexes(records, from + 1);
      if records[from].outcome.Failed? {
        NoFailureIndex(records, from + 1);
        assert FailureIndexes(records, from) == [from] + rest;
        assert FailureIndexes(records, from)[0] == from && [j][0] == j;
        assert rest != [] ==> |FailureIndexes(records, from)| > 1;
      } else {
        assert FailureIndexes(records, from) == rest;
        OneFailureIndex(records, from + 1, j);
      }
    }
  }

  lemma {:induction false} DistinctKeysCount(records: seq<Record>)
    requires forall i, j :: 0 <= i < j < |records| ==> records[i].key != records[j].key
    ensures |Keys(records)| == |records|
  {
    if records != [] {
      var last := |records| - 1;
      var before := records[..last];
      DistinctKeysCount(before);
      assert records == before + [records[last]];
      assert Keys(records) == Keys(before) + {records[last].key};
      assert records[last].key !in Keys(before);
    }
  }

  /** For every state whatever: success is reported exactly for the approved current proposal
      with a success record for each action. */
  lemma SucceededExactly(fp: Fingerprinter, s: GraphState)
    ensures VerifyResult(fp, s).1 == RunSucceeded <==>
              s.error.None? && Authorized(fp, s)
              && AllSucceeded(s.proposal.value.actions, s.records)
  {
    if s.error.None? && Authorized(fp, s) {
      var actions := s.proposal.value.actions;
      NoFailureIndex(s.records, 0);
      if |s.records| == |actions| && RecordsFollow(actions, s.records) {
        DistinctKeysCount(s.records);
      }
    }
  }

  /** Which checks lead to a partial failure. */
  lemma PartialFailureChecks(fp: Fingerprinter, s: GraphState)
    requires s.error.None? && Authorized(fp, s)
    ensures VerifyResult(fp, s).1 == RunPartialFailure <==>
              && 2 <= |s.records| <= |s.proposal.value.actions| && |Keys(s.records)| == |s.records|
              && RecordsFollow(s.proposal.value.actions, s.records)
              && FailureIndexes(s.records, 0) == [|s.records| - 1]
  {
    var failures := FailureIndexes(s.records, 0);
    assert |failures| == 1 ==> failures == [failures[0]];
  }

  /** Partial failure: at least one success, then exactly one failure, then nothing. */
  lemma PartialFailureExactly(fp: Fingerprinter, s: GraphState)
    ensures VerifyResult(fp, s).1 == RunPartialFailure <==>
              s.error.None? && Authorized(fp, s) && |s.records| >= 2
              && StoppedAtFailure(s.proposal.value.actions, s.records)
  {
    if s.error.None? && Authorized(fp, s) {
      PartialFailureChecks(fp, s);
      if s.records != [] {
        StoppedExactly(s.proposal.value.actions, s.records);
      }
    }
  }

  /** The same shape of the records, as the checks see it. */
  lemma StoppedExactly(actions: seq<Action>, records: seq<Record>)
    requires records != [] && UniqueKeys(actions)
    ensures StoppedAtFailure(actions, records) <==>
              && |records| <= |actions| && |Keys(records)| == |records|
              && RecordsFollow(actions, records) && FailureIndexes(records, 0) == [|records| - 1]
  {
    OneFailureIndex(records, 0, |records| - 1);
    if |records| <= |actions| && RecordsFollow(actions, records) {
      DistinctKeysCount(records);
    }
  }

  /** Rejection is reported exactly for a recorded rejection of the current proposal
      with nothing executed. */
  lemma RejectedExactly(fp: Fingerprinter, s: GraphState)
    ensures VerifyResult(fp, s).1 == RunRejected <==>
              s.error.None? && BoundApproval(fp, s) && s.decision == Some(Rejected)
              && s.records == []
  {
  }

  /** The summary counts what really happened, and the records are shown unless they cannot be trusted. */
  lemma SummaryIsTrue(fp: Fingerprinter, s: GraphState)
    requires Summarize(fp, s).Some?
    ensures var o := Summarize(fp, s).value;
            match o.summary
            case ActionsCompleted(n) =>
              && Authorized(fp, s) && AllSucceeded(s.proposal.value.actions, s.records)
              && n == |s.proposal.value.actions| > 0 && o.records == s.records
            case NoChangesRequired => Authorized(fp, s) && s.proposal.value.actions == [] && o.records == []
            case PartiallyCompleted(n, total) =>
              && Authorized(fp, s) && StoppedAtFailure(s.proposal.value.actions, s.records)
              && n == |s.records| - 1 > 0 && total == |s.proposal.value.actions| && o.records == s.records
            case PlanRejected => BoundApproval(fp, s) && s.decision == Some(Rejected) && s.records == [] == o.records
            case _ => o.status == RunFailed
  {
    SucceededExactly(fp, s);
    PartialFailureExactly(fp, s);
    RejectedExactly(fp, s);
  }

  /** What the verification says: how many records it looked at, and how and why it failed. */
  lemma VerificationTells(fp: Fingerprinter, s: GraphState)
    ensures var (v, status) := VerifyResult(fp, s);
            && (v.status == Verified <==> status == RunSucceeded && s.proposal.value.actions != [])
            && (v.status == NoAction <==> status == RunSucceeded && s.proposal.value.actions == [])
            && (v.status == VerifiedRejection <==> status == RunRejected)
            && (v.error.None? <==> v.status != VerificationFailed)
            && (v.error == Some(WorkflowFailed) <==> s.error.Some?)
            && (v.error == Some(ExecutionFailed) <==>
                  s.error.None? && Authorized(fp, s) && StoppedAtFailure(s.proposal.value.actions, s.records))
            && (v.error != Some(ResultInvalid) ==> v.checkedActions == |s.records|)
  {
    SucceededExactly(fp, s);
    RejectedExactly(fp, s);
    if s.error.None? && Authorized(fp, s) {
      StoppedTells(fp, s);
    }
  }

  lemma StoppedTells(fp: Fingerprinter, s: GraphState)
    requires s.error.None? && Authorized(fp, s)
    ensures VerifyResult(fp, s).0.error == Some(ExecutionFailed) <==>
              StoppedAtFailure(s.proposal.value.actions, s.records)
  {
    var failures := FailureIndexes(s.records, 0);
    assert |failures| == 1 ==> failures == [failures[0]];
    if s.records != [] {
      StoppedExactly(s.proposal.value.actions, s.records);
    } else {
      NoFailureIndex(s.records, 0);
    }
  }

  /** The rest of the output: the status and the counters are the state's, and the plan is that of the
      proposal, shown exactly unless the workflow failed or its records cannot be trusted. */
  lemma OutputTells(fp: Fingerprinter, s: GraphState)
    requires Summarize(fp, s).Some?
    ensures var o := Summarize(fp, s).value;
            && s.terminal == Some(o.status) && o.metrics == s.metrics
            && (o.plan.Some? ==> s.proposal.Some? && o.plan.value == s.proposal.value.plan)
            && (o.records != [] ==> o.records == s.records)
            && (o.plan.Some? <==>
                  s.proposal.Some? && s.error.None?
                  && s.verification.value.error != Some(ResultInvalid))
            && (o.status != RunFailed ==> o.plan.Some?)
  {
    SucceededExactly(fp, s);
    PartialFailureExactly(fp, s);
    RejectedExactly(fp, s);
  }

  /** The execution loop leaves either a success for every action or a stopped prefix. */
  lemma {:induction false} ExecutionRecordsShape(actions: seq<Action>, outcomes: seq<Outcome>)
    ensures var records := ExecutionRecords(actions, outcomes);
            AllSucceeded(actions, records) || StoppedAtFailure(actions, records)
    ensures forall i :: 0 <= i < |ExecutionRecords(actions, outcomes)| ==>
              ExecutionRecords(actions, outcomes)[i].outcome == OutcomeAt(outcomes, i)
  {
    if actions != [] && OutcomeAt(outcomes, 0).Succeeded? {
      var restActions, restOutcomes := actions[1..], outcomes[1..];
      ExecutionRecordsShape(restActions, restOutcomes);
      var rest := ExecutionRecords(restActions, restOutcomes);
      var records := ExecutionRecords(actions, outcomes);
      assert records == [RecordOf(actions[0], OutcomeAt(outcomes, 0))] + rest;
      forall i | 0 < i < |records| ensures records[i] == rest[i - 1] && actions[i] == restActions[i - 1] {
      }
      assert forall i :: 0 < i < |records| ==> OutcomeAt(outcomes, i) == OutcomeAt(restOutcomes, i - 1);
    }
  }

  function From(outcomes: seq<Outcome>, i: nat): seq<Outcome> {
    if i <= |outcomes| then outcomes[i..] else []
  }

  /** Attempting action `i` moves its record from what is left to what is done. */
  lemma RecordsStep(actions: seq<Action>, outcomes: seq<Outcome>, i: nat, done: seq<Record>)
    requires i < |actions|
    ensures var outcome := OutcomeAt(outcomes, i);
            var after := done + [RecordOf(actions[i], outcome)];
            done + ExecutionRecords(actions[i..], From(outcomes, i))
            == if outcome.Failed? then after else after + ExecutionRecords(actions[i + 1..], From(outcomes, i + 1))
  {
    var rest := From(outcomes, i);
    assert OutcomeAt(rest, 0) == OutcomeAt(outcomes, i);
    assert actions[i..][1..] == actions[i + 1..];
    assert (if rest == [] then [] else rest[1..]) == From(outcomes, i + 1);
  }

  /** The loop of the execution node: append one record per action, leave at the first failure. */
  method ExecuteActions(actions: seq<Action>, outcomes: seq<Outcome>) returns (records: seq<Record>)
    ensures records == ExecutionRecords(actions, outcomes)
  {
    ghost var goal := ExecutionRecords(actions, outcomes);
    records := [];
    var i := 0;
    assert actions[0..] == actions && From(outcomes, 0) == outcomes;
    while i < |actions|
      invariant 0 <= i <= |actions|
      invariant goal == records + ExecutionRecords(actions[i..], From(outcomes, i))
    {
      RecordsStep(actions, outcomes, i, records);
      var outcome := OutcomeAt(outcomes, i);
      records := records + [RecordOf(actions[i], outcome)];
      if outcome.Failed? {
        return;
      }
      i := i + 1;
    }
  }
}
