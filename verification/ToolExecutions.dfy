/** Audit rows around domain writes, and the coordinator that claims, dispatches and records
    one approved action of a run. */
module ToolExecutions {
  import opened Options
  import opened AgentState
  import opened ReceiptText

  const MAX_ATTEMPTS: nat := 100

  /** What makes an action unique within one run. */
  datatype Identity = Identity(revision: nat, fingerprint: Fingerprint, key: string)

  datatype Status = InProgress | Completed | FailedSafe | Unknown

  datatype Row = Row(
    tool: Tool,
    status: Status,
    attempts: nat,
    taskId: Option<string>,
    summary: Option<string>,
    error: Option<DomainError>,
    startedAt: int,
    completedAt: Option<int>)

  /** The table's check constraints on one row. */
  predicate RowShape(r: Row) {
    && 1 <= r.attempts <= MAX_ATTEMPTS
    && match r.status
       case InProgress => r.taskId.None? && r.summary.None? && r.error.None? && r.completedAt.None?
       case Completed => r.taskId.Some? && r.summary.Some? && r.error.None? && r.completedAt.Some?
       case FailedSafe => r.taskId.None? && r.summary.None? && r.error.Some? && r.completedAt.Some?
       case Unknown => r.taskId.None? && r.summary.None? && r.error.Some? && r.completedAt.Some?
  }

  function CreateClaim(tool: Tool, now: int): Row {
    Row(tool, InProgress, 1, None, None, None, now, None)
  }

  function RestartFailed(r: Row, now: int): Row {
    r.(status := InProgress, attempts := r.attempts + 1, error := None, completedAt := None,
       startedAt := now)
  }

  function CompleteRow(r: Row, taskId: string, summary: string, now: int): Row {
    r.(status := Completed, taskId := Some(taskId), summary := Some(summary), completedAt := Some(now))
  }

  function FailRow(r: Row, status: Status, error: DomainError, now: int): Row {
    r.(status := status, error := Some(error), completedAt := Some(now))
  }

  /** How a transaction ended: an unacknowledged commit is durable, but its caller sees an error. */
  datatype Commit = Committed | RolledBack | Unacknowledged

  function Settle<T>(commit: Commit, before: T, after: T): T {
    if commit == RolledBack then before else after
  }

  datatype Claim = ToExecute | ToReplay(row: Row) | Refused

  /** What the claim transaction decides, before it commits. */
  function Classify(rows: map<Identity, Row>, id: Identity, tool: Tool, approved: bool): Claim {
    if HighImpact(tool) && !approved then Refused
    else if id !in rows then ToExecute
    else
      var row := rows[id];
      if row.tool != tool then Refused
      else match row.status
        case Completed => if row.taskId.None? || row.summary.None? then Refused else ToReplay(row)
        case FailedSafe => if row.attempts >= MAX_ATTEMPTS then Refused else ToExecute
        case InProgress => Refused
        case Unknown => Refused
  }

  function ClaimedRows(rows: map<Identity, Row>, id: Identity, tool: Tool, now: int): map<Identity, Row> {
    rows[id := if id in rows then RestartFailed(rows[id], now) else CreateClaim(tool, now)]
  }

  /** The rows after the claim transaction and what the caller is told. */
  function ClaimStep(rows: map<Identity, Row>, id: Identity, tool: Tool, approved: bool, now: int, commit: Commit)
    : (map<Identity, Row>, Claim)
  {
    var decision := Classify(rows, id, tool, approved);
    if decision != ToExecute then (rows, if commit == Committed then decision else Refused)
    else (Settle(commit, rows, ClaimedRows(rows, id, tool, now)),
          if commit == Committed then ToExecute else Refused)
  }

  /** A domain call returns after its write, or raises with or without having written. */
  datatype RawDispatch = Returned(result: ToolResult) | Raised(error: DomainError, wrote: bool)

  /** The five proven exceptions are raised only by calls that wrote nothing. */
  type Dispatch = d: RawDispatch | d.Raised? && ProvenNoWrite(d.error) ==> !d.wrote
    witness Raised(OtherError, false)

  predicate Wrote(d: Dispatch) {
    d.Returned? || d.wrote
  }

  function FailureStatus(e: DomainError): Status {
    if ProvenNoWrite(e) then FailedSafe else Unknown
  }

  function CompletionStep(rows: map<Identity, Row>, id: Identity, result: ToolResult, now: int, commit: Commit)
    : (map<Identity, Row>, bool)
  {
    if id !in rows || rows[id].status != InProgress then (rows, false)
    else
      var (taskId, summary) := match result
        case PublicTask(id, title) => (id, title)
        case Mutation(_, reference, _, text) => (reference, text);
      (Settle(commit, rows, rows[id := CompleteRow(rows[id], taskId, summary, now)]), commit == Committed)
  }

  function FailureStep(rows: map<Identity, Row>, id: Identity, e: DomainError, now: int, commit: Commit)
    : map<Identity, Row>
  {
    if id !in rows || rows[id].status == Completed then rows
    else Settle(commit, rows, rows[id := FailRow(rows[id], FailureStatus(e), e, now)])
  }

  /** The error that reaches the caller: the domain's own only if the failure transaction succeeds. */
  function ReportedError(rows: map<Identity, Row>, id: Identity, e: DomainError, commit: Commit): DomainError {
    if id in rows && rows[id].status != Completed && commit == Committed then e else OtherError
  }

  /** The public result of a completed row; `loaded` is the stored task as read back. */
  function LoadPublicResult(row: Row, loaded: Option<ToolResult>): Option<ToolResult> {
    if row.taskId.None? || row.summary.None? then None
    else match row.tool
      case DeleteTask => Some(Mutation(DeleteTask, row.taskId.value, 1, row.summary.value))
      case BatchCreateTasks =>
        var count := ParseBatchSummary(row.summary.value);
        if count.Some? && 1 <= count.value <= 10
        then Some(Mutation(BatchCreateTasks, row.taskId.value, count.value, row.summary.value))
        else None
      case CreateTask => loaded
      case UpdateTask => loaded
  }

  // ------------------------------------------------------------- the ledger

  /** At most one committed write per identity, and what each row status says about it. */
  ghost predicate Ledger(rows: map<Identity, Row>, writes: multiset<Identity>) {
    && (forall id :: id in rows ==> RowShape(rows[id]))
    && (forall id :: id in writes ==> id in rows && writes[id] == 1 && rows[id].status != FailedSafe)
    && (forall id :: id in rows && rows[id].status == Completed ==> id in writes)
  }

  /** The identity is claimed and its domain call has not written. */
  predicate Claimed(rows: map<Identity, Row>, writes: multiset<Identity>, id: Identity, tool: Tool) {
    id in rows && rows[id].status == InProgress && rows[id].tool == tool && id !in writes
  }

  /** The identity is claimed and its domain call has written once. */
  predicate Performed(rows: map<Identity, Row>, writes: multiset<Identity>, id: Identity, tool: Tool) {
    id in rows && rows[id].status == InProgress && rows[id].tool == tool && writes[id] == 1
  }

  /** Only the row of `id` differs, it does not disappear, and a completed one stays as it is. */
  ghost predicate OnlyRow(rows: map<Identity, Row>, after: map<Identity, Row>, id: Identity) {
    && (forall other :: other != id && other in rows ==> other in after && after[other] == rows[other])
    && (forall other :: other != id && other in after ==> other in rows)
    && (id in rows ==> id in after)
    && (id in rows && rows[id].status == Completed ==> after[id] == rows[id])
  }

  /** Storing a well-formed row that claims neither too much nor too little about its write. */
  lemma PutKeepsLedger(rows: map<Identity, Row>, writes: multiset<Identity>, id: Identity, row: Row)
    requires Ledger(rows, writes) && RowShape(row)
    requires row.status == FailedSafe ==> id !in writes
    requires row.status == Completed ==> id in writes
    requires id in rows ==> rows[id].status != Completed
    ensures Ledger(rows[id := row], writes) && OnlyRow(rows, rows[id := row], id)
  {
  }

  lemma ClaimKeepsLedger(rows: map<Identity, Row>, writes: multiset<Identity>,
                         id: Identity, tool: Tool, approved: bool, now: int, commit: Commit)
    requires Ledger(rows, writes)
    ensures var (after, told) := ClaimStep(rows, id, tool, approved, now, commit);
            && Ledger(after, writes) && OnlyRow(rows, after, id)
            && (told == ToExecute ==> Claimed(after, writes, id, tool))
            && (id in rows && rows[id].status != FailedSafe ==> after == rows)
            && (id in after ==> id in rows || (approved || !HighImpact(tool)))
  {
    if Classify(rows, id, tool, approved) == ToExecute {
      PutKeepsLedger(rows, writes, id, ClaimedRows(rows, id, tool, now)[id]);
    }
  }

  lemma DispatchKeepsLedger(rows: map<Identity, Row>, writes: multiset<Identity>,
                            id: Identity, tool: Tool, d: Dispatch)
    requires Ledger(rows, writes) && Claimed(rows, writes, id, tool)
    ensures var after := if Wrote(d) then writes + multiset{id} else writes;
            Ledger(rows, after) && (Wrote(d) ==> Performed(rows, after, id, tool))
  {
  }

  lemma CompletionKeepsLedger(rows: map<Identity, Row>, writes: multiset<Identity>,
                              id: Identity, tool: Tool, result: ToolResult, now: int, commit: Commit)
    requires Ledger(rows, writes) && Performed(rows, writes, id, tool)
    ensures var (after, done) := CompletionStep(rows, id, result, now, commit);
            && Ledger(after, writes) && OnlyRow(rows, after, id)
            && after[id].tool == tool
            && (if done then after[id].status == Completed
                else after[id].status == InProgress || after[id].status == Completed)
  {
    var after := CompletionStep(rows, id, result, now, Committed).0;
    PutKeepsLedger(rows, writes, id, after[id]);
  }

  lemma FailureKeepsLedger(rows: map<Identity, Row>, writes: multiset<Identity>,
                           id: Identity, e: DomainError, now: int, commit: Commit)
    requires Ledger(rows, writes)
    requires ProvenNoWrite(e) ==> id !in writes
    ensures var after := FailureStep(rows, id, e, now, commit);
            && Ledger(after, writes) && OnlyRow(rows, after, id)
            && (id in rows ==> after[id].tool == rows[id].tool)
            && (id in rows && rows[id].status == Completed ==> after == rows)
            && (id in after <==> id in rows)
            // a specific error is reported only for a row recorded as safely failed
            && (ProvenNoWrite(ReportedError(rows, id, e, commit)) ==> id in after && after[id].status == FailedSafe)
  {
    if id in rows && rows[id].status != Completed {
      PutKeepsLedger(rows, writes, id, FailRow(rows[id], FailureStatus(e), e, now));
    }
  }

  /** What the domain gateway returns for the two capabilities whose receipts are rebuilt. */
  predicate GatewayReceipt(r: ToolResult) {
    && r.Mutation?
    && (r.operation == DeleteTask ==> r.affectedCount == 1)
    && (r.operation == BatchCreateTasks ==>
          1 <= r.affectedCount <= 10 && r.summary == BatchSummary(r.affectedCount))
    && HighImpact(r.operation)
  }

  /** Replaying a completed batch or deletion rebuilds the original receipt exactly, whatever
      has happened to the tasks since. */
  lemma ReplayRebuildsReceipt(row: Row, result: ToolResult, now: int, loaded: Option<ToolResult>)
    requires RowShape(row) && row.status == InProgress
    requires GatewayReceipt(result) && row.tool == result.operation
    ensures LoadPublicResult(CompleteRow(row, result.referenceTaskId, result.summary, now), loaded)
         == Some(result)
  {
    if result.operation == BatchCreateTasks {
      BatchSummaryRoundTrip(result.affectedCount);
    }
  }

  /** Everything the outside decides about one execution of an action. */
  datatype ExecutionAnswer = ExecutionAnswer(
    now: int,
    claim: Commit,
    dispatch: Dispatch,
    completion: Commit,
    failure: Commit,
    loaded: Option<ToolResult>)

  // -------------------------------------------------- what one execution comes to

  predicate ApprovedFor(tool: Tool, approved: bool) {
    HighImpact(tool) ==> approved
  }

  /** The action may be carried out: it is new, or failed safely with attempts left. */
  predicate MayClaim(rows: map<Identity, Row>, id: Identity, tool: Tool, approved: bool) {
    && ApprovedFor(tool, approved)
    && (id in rows ==> rows[id].tool == tool && rows[id].status == FailedSafe && rows[id].attempts < 100)
  }

  /** The action is claimed for its domain call. */
  predicate Executes(rows: map<Identity, Row>, id: Identity, tool: Tool, approved: bool, a: ExecutionAnswer) {
    MayClaim(rows, id, tool, approved) && a.claim == Committed
  }

  /** The action was completed before and its receipt is asked for again. */
  predicate Replays(rows: map<Identity, Row>, id: Identity, tool: Tool, approved: bool, a: ExecutionAnswer) {
    && ApprovedFor(tool, approved) && a.claim == Committed
    && id in rows && rows[id].tool == tool && rows[id].status == Completed
  }

  /** The domain call returned a result of the tool's kind. */
  predicate ReturnsFitting(tool: Tool, a: ExecutionAnswer) {
    a.dispatch.Returned? && ResultFits(tool, a.dispatch.result)
  }

  /** The call returned a fitting result and its completion was acknowledged. */
  predicate Performs(tool: Tool, a: ExecutionAnswer, r: ToolResult) {
    a.dispatch == Returned(r) && ResultFits(tool, r) && a.completion == Committed
  }

  /** What the row says after the domain call: completed if that was stored, even unacknowledged;
      else what the stored failure proves; and still in progress if neither was stored. */
  predicate RowTells(row: Row, tool: Tool, a: ExecutionAnswer) {
    && row.tool == tool
    && match row.status
       case Completed =>
         && ReturnsFitting(tool, a) && a.completion != RolledBack
         && Receipt(row, a.dispatch.result) && row.completedAt == Some(a.now)
       case InProgress => !(ReturnsFitting(tool, a) && a.completion != RolledBack) && a.failure == RolledBack
       case FailedSafe =>
         && a.failure != RolledBack
         && a.dispatch.Raised? && ProvenNoWrite(a.dispatch.error) && row.error == Some(a.dispatch.error)
       case Unknown =>
         && a.failure != RolledBack && row.error == Some(OtherError)
         && (a.dispatch.Raised? ==> a.dispatch.error == OtherError)
         && !(ReturnsFitting(tool, a) && a.completion != RolledBack)
  }

  /** The row keeps what the result refers to. */
  predicate Receipt(row: Row, r: ToolResult) {
    match r
    case PublicTask(task, title) => row.taskId == Some(task) && row.summary == Some(title)
    case Mutation(_, reference, _, text) => row.taskId == Some(reference) && row.summary == Some(text)
  }

  /** The result of a completed action: a deletion and a batch from the row alone, the batch's count
      being the one in its summary; a created or updated task as it is now. */
  predicate IsReceipt(row: Row, loaded: Option<ToolResult>, r: ToolResult) {
    if HighImpact(row.tool) then
      && r.Mutation? && r.operation == row.tool && Receipt(row, r)
      && (if row.tool == DeleteTask then r.affectedCount == 1
          else 1 <= r.affectedCount <= 10 && ParseBatchSummary(r.summary) == Some(r.affectedCount))
    else loaded == Some(r)
  }

  lemma ReceiptExactly(row: Row, loaded: Option<ToolResult>, r: ToolResult)
    requires RowShape(row) && row.status == Completed
    ensures LoadPublicResult(row, loaded) == Some(r) <==> IsReceipt(row, loaded, r)
  {
  }

  /** The failed call's error reaches the caller only if its own record was acknowledged. */
  predicate ErrorReported(tool: Tool, a: ExecutionAnswer, e: DomainError) {
    e == if a.dispatch.Raised? && a.failure == Committed then a.dispatch.error else OtherError
  }

  /** What the claim transaction comes to. */
  lemma ClaimExactly(rows: map<Identity, Row>, id: Identity, tool: Tool, approved: bool, a: ExecutionAnswer)
    requires id in rows ==> RowShape(rows[id])
    ensures var (after, told) := ClaimStep(rows, id, tool, approved, a.now, a.claim);
            && (told == ToExecute <==> Executes(rows, id, tool, approved, a))
            && (told.ToReplay? <==> Replays(rows, id, tool, approved, a))
            && (told.ToReplay? ==> told.row == rows[id])
            && ClaimLeaves(rows, id, tool, approved, a, after)
  {
  }

  /** The row of a claim that may be stored is in progress, with one attempt more; else all is as before. */
  predicate ClaimLeaves(rows: map<Identity, Row>, id: Identity, tool: Tool, approved: bool, a: ExecutionAnswer,
                        after: map<Identity, Row>)
  {
    if MayClaim(rows, id, tool, approved) && a.claim != RolledBack then
      && id in after && after[id].tool == tool && after[id].status == InProgress && CountsAttempt(rows, id, a, after)
    else after == rows
  }

  predicate CountsAttempt(rows: map<Identity, Row>, id: Identity, a: ExecutionAnswer, after: map<Identity, Row>) {
    && id in after && after[id].startedAt == a.now
    && after[id].attempts == (if id in rows then rows[id].attempts + 1 else 1)
  }

  /** What the caller is told: a result exactly when it was produced now or is the receipt of an
      earlier completion, and the call's own error only if its record was acknowledged. */
  ghost predicate Reports(rows: map<Identity, Row>, id: Identity, tool: Tool, approved: bool, a: ExecutionAnswer,
                          outcome: Outcome)
  {
    && (forall r :: outcome == Succeeded(r) <==>
          || (Executes(rows, id, tool, approved, a) && Performs(tool, a, r))
          || (Replays(rows, id, tool, approved, a) && ResultFits(tool, r) && IsReceipt(rows[id], a.loaded, r)))
    && (outcome.Failed? ==>
          if Executes(rows, id, tool, approved, a) then ErrorReported(tool, a, outcome.error)
          else outcome.error == OtherError)
  }

  /** The row afterwards: what the call left, a claim whose acknowledgement was lost, or as before. */
  predicate Leaves(rows: map<Identity, Row>, id: Identity, tool: Tool, approved: bool, a: ExecutionAnswer,
                   after: map<Identity, Row>)
  {
    if Executes(rows, id, tool, approved, a) then
      id in after && RowTells(after[id], tool, a) && CountsAttempt(rows, id, a, after)
    else ClaimLeaves(rows, id, tool, approved, a, after)
  }

  class AgentToolExecutionCoordinator {
    var rows: map<Identity, Row>
    var writes: multiset<Identity>

    ghost predicate Valid()
      reads this
    {
      Ledger(rows, writes)
    }

    constructor ()
      ensures Valid() && rows == map[] && writes == multiset{}
    {
      rows, writes := map[], multiset{};
    }

    /** One transaction: find the row, refuse, replay, restart or create it. */
    method TakeClaim(id: Identity, tool: Tool, approved: bool, now: int, commit: Commit) returns (told: Claim)
      requires Valid()
      modifies this`rows
      ensures Valid()
      ensures (rows, told) == ClaimStep(old(rows), id, tool, approved, now, commit)
      ensures told == ToExecute ==> Claimed(rows, writes, id, tool)
    {
      ClaimKeepsLedger(rows, writes, id, tool, approved, now, commit);
      if HighImpact(tool) && !approved {
        return Refused;
      }
      var pending := rows;
      if id !in rows {
        pending := rows[id := CreateClaim(tool, now)];
        told := ToExecute;
      } else {
        var row := rows[id];
        if row.tool != tool || row.status == InProgress || row.status == Unknown {
          return Refused;
        }
        if row.status == Completed {
          told := ToReplay(row);
        } else if row.attempts >= MAX_ATTEMPTS {
          return Refused;
        } else {
          pending := rows[id := RestartFailed(row, now)];
          told := ToExecute;
        }
      }
      if commit != RolledBack {
        rows := pending;
      }
      if commit != Committed {
        told := Refused;
      }
    }

    method RecordCompletion(id: Identity, result: ToolResult, now: int, commit: Commit) returns (done: bool)
      requires Valid()
      requires id in rows ==> Performed(rows, writes, id, rows[id].tool)
      modifies this`rows
      ensures Valid()
      ensures (rows, done) == CompletionStep(old(rows), id, result, now, commit)
    {
      if id in rows {
        CompletionKeepsLedger(rows, writes, id, rows[id].tool, result, now, commit);
      }
      if id !in rows || rows[id].status != InProgress {
        return false;
      }
      var taskId, summary;
      match result {
        case PublicTask(task, title) => taskId, summary := task, title;
        case Mutation(_, reference, _, text) => taskId, summary := reference, text;
      }
      if commit != RolledBack {
        rows := rows[id := CompleteRow(rows[id], taskId, summary, now)];
      }
      done := commit == Committed;
    }

    method RecordFailure(id: Identity, e: DomainError, now: int, commit: Commit) returns (reported: DomainError)
      requires Valid()
      requires ProvenNoWrite(e) ==> id !in writes
      modifies this`rows
      ensures Valid()
      ensures rows == FailureStep(old(rows), id, e, now, commit)
      ensures reported == ReportedError(old(rows), id, e, commit)
    {
      FailureKeepsLedger(rows, writes, id, e, now, commit);
      if id !in rows || rows[id].status == Completed {
        return OtherError;
      }
      if commit != RolledBack {
        rows := rows[id := FailRow(rows[id], FailureStatus(e), e, now)];
      }
      reported := if commit == Committed then e else OtherError;
    }

    /** Carry out a claimed action: dispatch it once and record how it ended. */
    method PerformClaimed(id: Identity, tool: Tool, a: ExecutionAnswer) returns (outcome: Outcome)
      requires Valid() && Claimed(rows, writes, id, tool)
      modifies this
      ensures Valid() && id in rows && OnlyRow(old(rows), rows, id)
      // exactly what is reported, what is written, and what the row says afterwards
      ensures forall r :: outcome == Succeeded(r) <==> Performs(tool, a, r)
      ensures outcome.Failed? ==> ErrorReported(tool, a, outcome.error)
      ensures writes == old(writes) + (if Wrote(a.dispatch) then multiset{id} else multiset{})
      ensures RowTells(rows[id], tool, a)
      ensures rows[id].attempts == old(rows)[id].attempts && rows[id].startedAt == old(rows)[id].startedAt
      ensures outcome.Succeeded? ==> rows[id].status == Completed && writes[id] == 1
      // a specific error is reported only for a row recorded as safely failed, with nothing written
      ensures outcome.Failed? && ProvenNoWrite(outcome.error) ==> rows[id].status == FailedSafe && id !in writes
    {
      DispatchKeepsLedger(rows, writes, id, tool, a.dispatch);
      if Wrote(a.dispatch) {
        writes := writes + multiset{id};
      }
      var e := if a.dispatch.Raised? then a.dispatch.error else OtherError;
      if a.dispatch.Returned? && ResultFits(tool, a.dispatch.result) {
        CompletionKeepsLedger(rows, writes, id, tool, a.dispatch.result, a.now, a.completion);
        var done := RecordCompletion(id, a.dispatch.result, a.now, a.completion);
        if done {
          return Succeeded(a.dispatch.result);
        }
      }
      FailureKeepsLedger(rows, writes, id, e, a.now, a.failure);
      var reported := RecordFailure(id, e, a.now, a.failure);
      outcome := Failed(reported);
    }

    /** The stored result of a completed action. */
    method Replay(row: Row, tool: Tool, loaded: Option<ToolResult>) returns (outcome: Outcome)
      requires RowShape(row) && row.status == Completed
      ensures forall r :: outcome == Succeeded(r) <==> ResultFits(tool, r) && IsReceipt(row, loaded, r)
      ensures outcome.Failed? ==> outcome.error == OtherError
    {
      var result := LoadPublicResult(row, loaded);
      forall r ensures result == Some(r) <==> IsReceipt(row, loaded, r) {
        ReceiptExactly(row, loaded, r);
      }
      outcome := if result.Some? && ResultFits(tool, result.value) then Succeeded(result.value) else Failed(OtherError);
    }

    /** Execute one approved action: claim, write at most once, record, or replay. */
    method ExecuteAction(id: Identity, tool: Tool, approved: bool, a: ExecutionAnswer) returns (outcome: Outcome)
      requires Valid()
      modifies this
      ensures Valid()
      ensures Reports(old(rows), id, tool, approved, a, outcome)
      ensures Leaves(old(rows), id, tool, approved, a, rows)
      // the domain is written exactly when the claim is acknowledged and the call writes
      ensures writes == old(writes) + (if Executes(old(rows), id, tool, approved, a) && Wrote(a.dispatch)
                                       then multiset{id} else multiset{})
      // a success stands on a completed row and exactly one committed write
      ensures outcome.Succeeded? ==> id in rows && rows[id].status == Completed && writes[id] == 1
      // a specific error is reported only for a row recorded as safely failed, with nothing written
      ensures outcome.Failed? && ProvenNoWrite(outcome.error) ==>
                id in rows && rows[id].status == FailedSafe && id !in writes
      // a completed or doubtful row is never written again
      ensures id in old(rows) && old(rows)[id].status != FailedSafe ==>
                rows == old(rows) && writes == old(writes)
      ensures id in old(rows) && (old(rows)[id].status == InProgress || old(rows)[id].status == Unknown) ==>
                outcome.Failed?
      // one call writes at most once, and only under its own identity
      ensures writes == old(writes) || (writes == old(writes) + multiset{id} && id !in old(writes))
      ensures OnlyRow(old(rows), rows, id)
      // an unapproved high-impact action writes nothing
      ensures HighImpact(tool) && !approved ==> rows == old(rows) && writes == old(writes)
    {
      ClaimExactly(rows, id, tool, approved, a);
      ClaimKeepsLedger(rows, writes, id, tool, approved, a.now, a.claim);
      var told := TakeClaim(id, tool, approved, a.now, a.claim);
      match told {
        case Refused =>
          outcome := Failed(OtherError);
        case ToReplay(row) =>
          outcome := Replay(row, tool, a.loaded);
        case ToExecute =>
          outcome := PerformClaimed(id, tool, a);
      }
    }
  }
}
