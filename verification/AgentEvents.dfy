/** The public event stream: a projection of the stored rows of one run, and its resumption. */
module AgentEvents {
  import opened Options
  import opened Numbers
  import opened ReceiptText
  import opened Sorting

  datatype Status = Pending | Running | PendingApproval | Succeeded | Rejected | PartialFailure | Failed

  /** The statuses that no later submission changes. */
  predicate Terminal(status: Status) {
    status in {Succeeded, Rejected, PartialFailure, Failed}
  }

  datatype RunView = RunView(
    id: string,
    status: Status,
    node: Option<string>,
    summary: Option<string>,
    metrics: nat,
    updatedAt: int)

  datatype ApprovalView = ApprovalView(id: string, revision: nat, fingerprint: nat, pending: bool, createdAt: int)

  /** The row states of an execution, each with the columns that the table guarantees for it. */
  datatype ExecutionState =
    | InProgress
    | Completed(completedAt: int, summary: string)
    | Ended(endedAt: int, errorCode: string)

  datatype ExecutionView = ExecutionView(id: string, tool: string, startedAt: int, state: ExecutionState)

  datatype Payload =
    | RunStatus(status: Status)
    | NodeStatus(node: string)
    | ApprovalRequired(revision: nat, fingerprint: nat)
    | ToolStarted(tool: string)
    | ToolResult(tool: string, summary: string)
    | SafeError(errorCode: string)
    | MetricsSnapshot(metrics: nat)
    | TerminalResult(status: Status, outcome: Option<string>)
    | Heartbeat

  datatype Draft = Draft(occurredAt: int, order: nat, key: string, payload: Payload)

  datatype PublicEvent = PublicEvent(id: string, runId: string, sequence: nat, draft: Draft)

  // ------------------------------------------------------------------- order

  /** Lexicographic order of texts. */
  predicate TextBefore(a: string, b: string) {
    if b == [] then false
    else if a == [] then true
    else a[0] < b[0] || (a[0] == b[0] && TextBefore(a[1..], b[1..]))
  }

  predicate DraftBefore(a: Draft, b: Draft) {
    || a.occurredAt < b.occurredAt
    || (a.occurredAt == b.occurredAt && a.order < b.order)
    || (a.occurredAt == b.occurredAt && a.order == b.order && TextBefore(a.key, b.key))
  }

  lemma {:induction false} TextIrreflexive(a: string)
    ensures !TextBefore(a, a)
  {
    if a != [] {
      TextIrreflexive(a[1..]);
    }
  }

  lemma {:induction false} TextTransitive(a: string, b: string, c: string)
    requires TextBefore(a, b) && TextBefore(b, c)
    ensures TextBefore(a, c)
  {
    if a != [] && a[0] == b[0] == c[0] {
      TextTransitive(a[1..], b[1..], c[1..]);
    }
  }

  lemma {:induction false} TextTotal(a: string, b: string)
    ensures a == b || TextBefore(a, b) || TextBefore(b, a)
  {
    if a != [] && b != [] && a[0] == b[0] {
      TextTotal(a[1..], b[1..]);
      assert a == [a[0]] + a[1..] && b == [b[0]] + b[1..];
    }
  }

  // -------------------------------------------------------------- projection

  function StatusDrafts(run: RunView): seq<Draft> {
    [Draft(run.updatedAt, 10, "run-status", RunStatus(run.status))]
    + (if run.node.Some? then [Draft(run.updatedAt, 20, "node-status", NodeStatus(run.node.value))] else [])
  }

  function ApprovalDrafts(a: ApprovalView): seq<Draft> {
    if a.pending then [Draft(a.createdAt, 25, "approval:" + a.id, ApprovalRequired(a.revision, a.fingerprint))] else []
  }

  function ExecutionDrafts(e: ExecutionView): seq<Draft> {
    [Draft(e.startedAt, 30, e.id + ":started", ToolStarted(e.tool))]
    + match e.state
      case InProgress => []
      case Completed(at, summary) => [Draft(at, 40, e.id + ":result", ToolResult(e.tool, summary))]
      case Ended(at, code) => [Draft(at, 40, e.id + ":error", SafeError(code))]
  }

  function ClosingDrafts(run: RunView): seq<Draft> {
    [Draft(run.updatedAt, 80, "metrics", MetricsSnapshot(run.metrics)),
     if Terminal(run.status) then Draft(run.updatedAt, 90, "terminal", TerminalResult(run.status, run.summary))
     else Draft(run.updatedAt, 90, "heartbeat", Heartbeat)]
  }

  function FlatMap<X>(f: X -> seq<Draft>, xs: seq<X>): seq<Draft> {
    if xs == [] then [] else FlatMap(f, xs[..|xs| - 1]) + f(xs[|xs| - 1])
  }

  function Drafts(run: RunView, approvals: seq<ApprovalView>, executions: seq<ExecutionView>): seq<Draft> {
    StatusDrafts(run) + FlatMap(ApprovalDrafts, approvals) + FlatMap(ExecutionDrafts, executions) + ClosingDrafts(run)
  }

  /** At least eight decimal digits. */
  function Padded(n: nat): string {
    var digits := Decimal(n);
    if |digits| < 8 then Zeros(8 - |digits|) + digits else digits
  }

  function Zeros(n: nat): string {
    if n == 0 then [] else ['0'] + Zeros(n - 1)
  }

  function EventId(runId: string, sequence: nat): string {
    runId + ":" + Padded(sequence)
  }

  function Published(runId: string, drafts: seq<Draft>): seq<PublicEvent> {
    seq(|drafts|, i requires 0 <= i < |drafts| => PublicEvent(EventId(runId, i + 1), runId, i + 1, drafts[i]))
  }

  function Stream(run: RunView, approvals: seq<ApprovalView>, executions: seq<ExecutionView>): seq<PublicEvent> {
    Published(run.id, Sort(DraftBefore, Drafts(run, approvals, executions)))
  }

  /** Append the drafts row by row, sort them, and number them. */
  method BuildPublicAgentEvents(run: RunView, approvals: seq<ApprovalView>, executions: seq<ExecutionView>)
    returns (events: seq<PublicEvent>)
    ensures events == Stream(run, approvals, executions)
  {
    var drafts := [Draft(run.updatedAt, 10, "run-status", RunStatus(run.status))];
    if run.node.Some? {
      drafts := drafts + [Draft(run.updatedAt, 20, "node-status", NodeStatus(run.node.value))];
    }
    assert drafts == StatusDrafts(run);
    drafts := AppendApprovals(drafts, approvals);
    drafts := AppendExecutions(drafts, executions);
    ghost var rows := drafts;
    drafts := drafts + [Draft(run.updatedAt, 80, "metrics", MetricsSnapshot(run.metrics))];
    if Terminal(run.status) {
      drafts := drafts + [Draft(run.updatedAt, 90, "terminal", TerminalResult(run.status, run.summary))];
    } else {
      drafts := drafts + [Draft(run.updatedAt, 90, "heartbeat", Heartbeat)];
    }
    assert drafts == rows + ClosingDrafts(run);
    events := Published(run.id, Sort(DraftBefore, drafts));
  }

  method AppendApprovals(before: seq<Draft>, approvals: seq<ApprovalView>) returns (drafts: seq<Draft>)
    ensures drafts == before + FlatMap(ApprovalDrafts, approvals)
  {
    drafts := before;
    var i := 0;
    while i < |approvals|
      invariant 0 <= i <= |approvals|
      invariant drafts == before + FlatMap(ApprovalDrafts, approvals[..i])
    {
      assert approvals[..i + 1][..i] == approvals[..i];
      if approvals[i].pending {
        drafts := drafts + [Draft(approvals[i].createdAt, 25, "approval:" + approvals[i].id,
                                  ApprovalRequired(approvals[i].revision, approvals[i].fingerprint))];
      }
      i := i + 1;
    }
    assert approvals[..|approvals|] == approvals;
  }

  method AppendExecutions(before: seq<Draft>, executions: seq<ExecutionView>) returns (drafts: seq<Draft>)
    ensures drafts == before + FlatMap(ExecutionDrafts, executions)
  {
    drafts := before;
    var i := 0;
    while i < |executions|
      invariant 0 <= i <= |executions|
      invariant drafts == before + FlatMap(ExecutionDrafts, executions[..i])
    {
      assert executions[..i + 1][..i] == executions[..i];
      drafts := drafts + ExecutionDrafts(executions[i]);
      i := i + 1;
    }
    assert executions[..|executions|] == executions;
  }

  // ------------------------------------------------------ independence of order

  lemma {:induction false} FlatMapConcat<X>(f: X -> seq<Draft>, a: seq<X>, b: seq<X>)
    ensures FlatMap(f, a + b) == FlatMap(f, a) + FlatMap(f, b)
  {
    if b == [] {
      assert a + b == a;
    } else {
      assert (a + b)[..|a + b| - 1] == a + b[..|b| - 1];
      FlatMapConcat(f, a, b[..|b| - 1]);
    }
  }

  lemma FlatMapLast<X>(f: X -> seq<Draft>, xs: seq<X>, last: X)
    ensures FlatMap(f, xs + [last]) == FlatMap(f, xs) + f(last)
  {
    assert (xs + [last])[..|xs|] == xs;
  }

  /** Taking one row out takes its drafts out. */
  lemma FlatMapWithout<X>(f: X -> seq<Draft>, before: seq<X>, x: X, after: seq<X>)
    ensures multiset(FlatMap(f, before + [x] + after))
         == multiset(FlatMap(f, before + after)) + multiset(f(x))
  {
    FlatMapConcat(f, before + [x], after);
    FlatMapLast(f, before, x);
    FlatMapConcat(f, before, after);
  }

  lemma {:induction false} FlatMapPermutes<X>(f: X -> seq<Draft>, a: seq<X>, b: seq<X>)
    requires multiset(a) == multiset(b)
    ensures multiset(FlatMap(f, a)) == multiset(FlatMap(f, b))
    decreases |a|
  {
    if a == [] {
      assert |b| == |multiset(b)| == 0;
    } else {
      var front, last := a[..|a| - 1], a[|a| - 1];
      assert a == front + [last];
      var i := SamePlace(front, last, b);
      FlatMapPermutes(f, front, b[..i] + b[i + 1..]);
      FlatMapWithout(f, b[..i], last, b[i + 1..]);
      assert b == b[..i] + [last] + b[i + 1..];
    }
  }

  lemma SamePlace<X>(front: seq<X>, last: X, b: seq<X>) returns (i: nat)
    requires multiset(front + [last]) == multiset(b)
    ensures i < |b| && b[i] == last && multiset(front) == multiset(b[..i] + b[i + 1..])
  {
    assert last in multiset(b);
    i :| 0 <= i < |b| && b[i] == last;
    assert b == b[..i] + [last] + b[i + 1..];
    assert multiset(front) == multiset(front + [last]) - multiset{last};
    assert multiset(b[..i] + b[i + 1..]) == multiset(b) - multiset{last};
  }

  /** Rows are identified by their ids. */
  ghost predicate DistinctRows(approvals: seq<ApprovalView>, executions: seq<ExecutionView>) {
    && (forall i, j :: 0 <= i < j < |approvals| ==> approvals[i].id != approvals[j].id)
    && (forall i, j :: 0 <= i < j < |executions| ==> executions[i].id != executions[j].id)
  }

  lemma {:induction false} FromSome<X>(f: X -> seq<Draft>, xs: seq<X>, d: Draft) returns (x: X)
    requires d in FlatMap(f, xs)
    ensures x in xs && d in f(x)
  {
    var last := xs[|xs| - 1];
    if d in f(last) {
      x := last;
    } else {
      x := FromSome(f, xs[..|xs| - 1], d);
    }
  }

  /** Which row a draft comes from. */
  datatype Origin = FromRun | FromApproval(approval: ApprovalView) | FromExecution(execution: ExecutionView)

  ghost predicate Originates(run: RunView, o: Origin, d: Draft) {
    match o
    case FromRun => d in StatusDrafts(run) || d in ClosingDrafts(run)
    case FromApproval(a) => d in ApprovalDrafts(a)
    case FromExecution(e) => d in ExecutionDrafts(e)
  }

  lemma OriginOf(run: RunView, approvals: seq<ApprovalView>, executions: seq<ExecutionView>, d: Draft)
    returns (o: Origin)
    requires d in Drafts(run, approvals, executions)
    ensures Originates(run, o, d)
    ensures o.FromApproval? ==> o.approval in approvals
    ensures o.FromExecution? ==> o.execution in executions
  {
    if d in StatusDrafts(run) || d in ClosingDrafts(run) {
      o := FromRun;
    } else if d in FlatMap(ApprovalDrafts, approvals) {
      var a := FromSome(ApprovalDrafts, approvals, d);
      o := FromApproval(a);
    } else {
      var e := FromSome(ExecutionDrafts, executions, d);
      o := FromExecution(e);
    }
  }

  lemma SuffixDetermines(a: string, b: string, suffix: string)
    requires a + suffix == b + suffix
    ensures a == b
  {
    assert |a| == |b|;
    assert (a + suffix)[..|a|] == a && (b + suffix)[..|b|] == b;
  }

  lemma PrefixDetermines(prefix: string, a: string, b: string)
    requires prefix + a == prefix + b
    ensures a == b
  {
    assert (prefix + a)[|prefix|..] == a && (prefix + b)[|prefix|..] == b;
  }

  /** Order and key identify an execution's draft. */
  lemma ExecutionKeys(x: ExecutionView, y: ExecutionView, d: Draft, e: Draft)
    requires d in ExecutionDrafts(x) && e in ExecutionDrafts(y) && d.order == e.order && d.key == e.key
    ensures x.id == y.id
    ensures x == y ==> d == e
  {
    if d.order == 30 {
      SuffixDetermines(x.id, y.id, ":started");
    } else {
      assert ":result"[6] == 't' && ":error"[5] == 'r';
      assert x.state.Completed? ==> d.key[|d.key| - 1] == 't';
      assert x.state.Ended? ==> d.key[|d.key| - 1] == 'r';
      assert y.state.Completed? ==> e.key[|e.key| - 1] == 't';
      assert y.state.Ended? ==> e.key[|e.key| - 1] == 'r';
      if x.state.Completed? {
        SuffixDetermines(x.id, y.id, ":result");
      } else {
        SuffixDetermines(x.id, y.id, ":error");
      }
    }
  }

  /** Drafts of one origin with the same order and key are equal. */
  lemma SameOriginKeys(run: RunView, o: Origin, p: Origin, x: Draft, y: Draft)
    requires Originates(run, o, x) && Originates(run, p, y) && x.order == y.order && x.key == y.key
    requires o.FromApproval? && p.FromApproval? && o.approval.id == p.approval.id ==> o == p
    requires o.FromExecution? && p.FromExecution? && o.execution.id == p.execution.id ==> o == p
    ensures x == y
  {
    match o {
      case FromRun =>
      case FromApproval(a) =>
        if p.FromApproval? {
          PrefixDetermines("approval:", a.id, p.approval.id);
        }
      case FromExecution(e) =>
        if p.FromExecution? {
          ExecutionKeys(e, p.execution, x, y);
        }
    }
  }

  lemma KeysIdentify(run: RunView, approvals: seq<ApprovalView>, executions: seq<ExecutionView>, x: Draft, y: Draft)
    requires DistinctRows(approvals, executions)
    requires x in Drafts(run, approvals, executions) && y in Drafts(run, approvals, executions)
    requires x.order == y.order && x.key == y.key
    ensures x == y
  {
    var o := OriginOf(run, approvals, executions, x);
    var p := OriginOf(run, approvals, executions, y);
    SameOriginKeys(run, o, p, x, y);
  }

  lemma DraftsAreOrdered(run: RunView, approvals: seq<ApprovalView>, executions: seq<ExecutionView>)
    requires DistinctRows(approvals, executions)
    ensures OrdersAll(DraftBefore, multiset(Drafts(run, approvals, executions)))
  {
    var drafts := Drafts(run, approvals, executions);
    forall x: Draft ensures !DraftBefore(x, x) {
      TextIrreflexive(x.key);
    }
    forall x: Draft, y: Draft, z: Draft | DraftBefore(x, y) && DraftBefore(y, z) ensures DraftBefore(x, z) {
      if TextBefore(x.key, y.key) && TextBefore(y.key, z.key) {
        TextTransitive(x.key, y.key, z.key);
      }
    }
    forall x: Draft, y: Draft | x in multiset(drafts) && y in multiset(drafts) && x != y
      ensures DraftBefore(x, y) || DraftBefore(y, x)
    {
      TextTotal(x.key, y.key);
      if x.order == y.order && x.key == y.key {
        KeysIdentify(run, approvals, executions, x, y);
        assert false;
      }
    }
  }

  /** The stream does not depend on the order in which approvals and executions are read. */
  lemma StreamIgnoresInputOrder(run: RunView, approvals: seq<ApprovalView>, executions: seq<ExecutionView>,
                                approvals': seq<ApprovalView>, executions': seq<ExecutionView>)
    requires DistinctRows(approvals, executions)
    requires multiset(approvals) == multiset(approvals') && multiset(executions) == multiset(executions')
    ensures Stream(run, approvals, executions) == Stream(run, approvals', executions')
  {
    FlatMapPermutes(ApprovalDrafts, approvals, approvals');
    FlatMapPermutes(ExecutionDrafts, executions, executions');
    DraftsAreOrdered(run, approvals, executions);
    SortIgnoresOrder(DraftBefore, Drafts(run, approvals, executions), Drafts(run, approvals', executions'));
  }

  // ---------------------------------------------------------- shape of a stream

  lemma {:induction false} ParseZeros(n: nat, digits: string)
    requires ParseNat(digits).Some?
    ensures ParseNat(Zeros(n) + digits) == ParseNat(digits)
    decreases n
  {
    if n == 0 {
      assert Zeros(0) + digits == digits;
    } else {
      ParseZeros(n - 1, digits);
      assert Zeros(n) + digits == ['0'] + (Zeros(n - 1) + digits);
      LeadingZero(Zeros(n - 1) + digits);
    }
  }

  lemma {:induction false} LeadingZero(text: string)
    requires ParseNat(text).Some?
    ensures ParseNat(['0'] + text) == ParseNat(text)
    decreases |text|
  {
    var all := ['0'] + text;
    assert all[|all| - 1] == text[|text| - 1];
    assert all[..|all| - 1] == ['0'] + text[..|text| - 1];
    if |text| == 1 {
      assert ['0'] + text[..0] == ['0'];
      assert ParseNat(['0']) == Some(0);
    } else {
      LeadingZero(text[..|text| - 1]);
    }
  }

  /** An event id is the run's and the position in at least eight digits. */
  lemma EventIdTells(runId: string, n: nat)
    ensures ParseNat(Padded(n)) == Some(n) && |Padded(n)| >= 8
    ensures EventId(runId, n) == runId + (":" + Padded(n))
  {
    ParseDecimal(n);
    if |Decimal(n)| < 8 {
      ParseZeros(8 - |Decimal(n)|, Decimal(n));
      ZerosLength(8 - |Decimal(n)|);
    }
  }

  lemma {:induction false} ZerosLength(n: nat)
    ensures |Zeros(n)| == n
  {
    if n > 0 {
      ZerosLength(n - 1);
    }
  }

  /** Different positions have different event ids. */
  lemma EventIdsDiffer(runId: string, m: nat, n: nat)
    requires EventId(runId, m) == EventId(runId, n)
    ensures m == n
  {
    PrefixDetermines(runId + ":", Padded(m), Padded(n));
    EventIdTells(runId, m);
    EventIdTells(runId, n);
  }

  /** Events numbered 1..n with distinct ids, carrying these drafts in this order. */
  ghost predicate Numbered(events: seq<PublicEvent>, drafts: seq<Draft>) {
    && |events| == |drafts|
    && (forall i :: 0 <= i < |events| ==> events[i].sequence == i + 1 && events[i].draft == drafts[i])
    && (forall i, j :: 0 <= i < j < |events| ==> events[i].id != events[j].id)
  }

  lemma PublishedIsNumbered(runId: string, drafts: seq<Draft>)
    ensures Numbered(Published(runId, drafts), drafts)
  {
    var events := Published(runId, drafts);
    forall i, j | 0 <= i < j < |events| ensures events[i].id != events[j].id {
      PublishedIds(runId, drafts, i);
    }
  }

  ghost predicate InTimeOrder(drafts: seq<Draft>) {
    forall i, j :: 0 <= i < j < |drafts| ==> drafts[i].occurredAt <= drafts[j].occurredAt
  }

  lemma SortedIsInTimeOrder(drafts: seq<Draft>)
    requires Sorted(DraftBefore, drafts)
    ensures InTimeOrder(drafts)
  {
    forall i, j | 0 <= i < j < |drafts| ensures drafts[i].occurredAt <= drafts[j].occurredAt {
      assert DraftBefore(drafts[i], drafts[j]) || drafts[i] == drafts[j];
    }
  }

  /** A stream is a permutation of its drafts in order of time, numbered 1..n, with distinct ids. */
  lemma StreamIsNumbered(run: RunView, approvals: seq<ApprovalView>, executions: seq<ExecutionView>)
    requires DistinctRows(approvals, executions)
    ensures exists sorted :: && multiset(sorted) == multiset(Drafts(run, approvals, executions))
                             && InTimeOrder(sorted) && Numbered(Stream(run, approvals, executions), sorted)
  {
    var drafts := Drafts(run, approvals, executions);
    DraftsAreOrdered(run, approvals, executions);
    SortSorts(DraftBefore, drafts);
    var sorted := Sort(DraftBefore, drafts);
    SortedIsInTimeOrder(sorted);
    PublishedIsNumbered(run.id, sorted);
  }

  // --------------------------------------------------------------- resumption

  predicate StartsWith(text: string, prefix: string) {
    |prefix| <= |text| && text[..|prefix|] == prefix
  }

  /** The index of the first event with this id from `from` on, or the length if there is none. */
  function FirstMatch(events: seq<PublicEvent>, cursor: string, from: nat): (k: nat)
    requires from <= |events|
    ensures from <= k <= |events|
    ensures k < |events| ==> events[k].id == cursor
    ensures forall j :: from <= j < k ==> events[j].id != cursor
    decreases |events| - from
  {
    if from == |events| || events[from].id == cursor then from else FirstMatch(events, cursor, from + 1)
  }

  /** The retained events after an exact cursor; nothing means the cursor is refused. */
  function ResumeAfter(events: seq<PublicEvent>, lastEventId: Option<string>): Option<seq<PublicEvent>> {
    if lastEventId.None? then Some(events)
    else if events == [] || !StartsWith(lastEventId.value, events[0].runId + ":") then None
    else
      var k := FirstMatch(events, lastEventId.value, 0);
      if k == |events| then None else Some(events[k + 1..])
  }

  method ResumeAfterEvent(events: seq<PublicEvent>, lastEventId: Option<string>)
    returns (rest: Option<seq<PublicEvent>>)
    ensures rest == ResumeAfter(events, lastEventId)
  {
    if lastEventId.None? {
      return Some(events);
    }
    if events == [] {
      return None;
    }
    if !StartsWith(lastEventId.value, events[0].runId + ":") {
      return None;
    }
    var i := 0;
    while i < |events|
      invariant 0 <= i <= |events|
      invariant FirstMatch(events, lastEventId.value, i) == FirstMatch(events, lastEventId.value, 0)
    {
      if events[i].id == lastEventId.value {
        return Some(events[i + 1..]);
      }
      i := i + 1;
    }
    rest := None;
  }

  lemma PublishedIds(runId: string, drafts: seq<Draft>, k: nat)
    requires k < |drafts|
    ensures var events := Published(runId, drafts);
            && events[k].id == EventId(runId, k + 1) && events[0].runId == runId
            && StartsWith(events[k].id, runId + ":")
            && forall j :: 0 <= j < |events| && j != k ==> events[j].id != events[k].id
  {
    var events := Published(runId, drafts);
    forall j | 0 <= j < |events| && j != k ensures events[j].id != events[k].id {
      if events[j].id == events[k].id {
        EventIdsDiffer(runId, j + 1, k + 1);
        assert false;
      }
    }
  }

  /** Resuming after the k-th event of a stream returns exactly the rest. */
  lemma ResumeReturnsRest(runId: string, drafts: seq<Draft>, k: nat)
    requires k < |drafts|
    ensures var events := Published(runId, drafts);
            ResumeAfter(events, Some(events[k].id)) == Some(events[k + 1..])
  {
    PublishedIds(runId, drafts, k);
    var events := Published(runId, drafts);
    assert FirstMatch(events, events[k].id, 0) == k;
  }

  /** A cursor is accepted exactly when it is the id of one of the stream's events. */
  lemma CursorAcceptedExactly(runId: string, drafts: seq<Draft>, cursor: string)
    ensures var events := Published(runId, drafts);
            ResumeAfter(events, Some(cursor)).Some? <==> exists k :: 0 <= k < |events| && events[k].id == cursor
  {
    var events := Published(runId, drafts);
    if k :| 0 <= k < |events| && events[k].id == cursor {
      ResumeReturnsRest(runId, drafts, k);
    } else if events != [] {
      assert FirstMatch(events, cursor, 0) == |events|;
    }
  }

  /** What a connection offers a client that has the first `received` events. */
  function Offered(events: seq<PublicEvent>, received: nat): Option<seq<PublicEvent>>
  {
    if received > |events| then None
    else ResumeAfter(events, if received == 0 then None else Some(events[received - 1].id))
  }

  /** The part of an offer that a client reads before its connection is cut. */
  function Read(offered: Option<seq<PublicEvent>>, budget: nat): seq<PublicEvent> {
    if offered.None? then []
    else if budget < |offered.value| then offered.value[..budget]
    else offered.value
  }

  /** What a client receives over several connections: `offers(received)` is what a connection gives
      it once it has `received` events, and it reads up to `budgets[0]` of them before it is cut off. */
  function Session(offers: nat -> Option<seq<PublicEvent>>, received: nat, budgets: seq<nat>): seq<PublicEvent>
    decreases |budgets|
  {
    if budgets == [] then []
    else
      var got := Read(offers(received), budgets[0]);
      got + Session(offers, received + |got|, budgets[1..])
  }

  function Total(budgets: seq<nat>): nat {
    if budgets == [] then 0 else budgets[0] + Total(budgets[1..])
  }

  /** Every event of the list is a good cursor. */
  ghost predicate Resumable(events: seq<PublicEvent>) {
    forall k {:trigger ResumeAfter(events, Some(events[k].id))} ::
      0 <= k < |events| ==> ResumeAfter(events, Some(events[k].id)) == Some(events[k + 1..])
  }

  /** `part` is the contiguous part of `events` that starts at `from`. */
  ghost predicate IsPart(events: seq<PublicEvent>, from: nat, part: seq<PublicEvent>) {
    from + |part| <= |events| && part == events[from..from + |part|]
  }

  lemma PartsJoin(events: seq<PublicEvent>, from: nat, first: seq<PublicEvent>, second: seq<PublicEvent>)
    requires IsPart(events, from, first) && IsPart(events, from + |first|, second)
    ensures IsPart(events, from, first + second)
  {
  }

  lemma OfferIsRest(events: seq<PublicEvent>, received: nat)
    requires Resumable(events) && received <= |events|
    ensures Offered(events, received) == Some(events[received..])
  {
    if received == 0 {
      assert events[0..] == events;
    }
  }

  /** One connection delivers the next part of the stream. */
  lemma ReadIsNext(events: seq<PublicEvent>, received: nat, budget: nat)
    requires received <= |events|
    ensures IsPart(events, received, Read(Some(events[received..]), budget))
    ensures |Read(Some(events[received..]), budget)| == Min(budget, |events| - received)
  {
  }

  /** Points the verifier at two parts to be joined. */
  predicate Joining(from: nat, first: seq<PublicEvent>, second: seq<PublicEvent>) {
    true
  }

  /** What each connection delivers is a part, and parts that follow each other join. */
  ghost predicate DeliversParts(offers: nat -> Option<seq<PublicEvent>>, top: nat,
                                part: (nat, seq<PublicEvent>) -> bool)
  {
    && (forall n: nat, budget: nat :: n <= top ==>
          part(n, Read(offers(n), budget)) && |Read(offers(n), budget)| == Min(budget, top - n))
    && (forall n: nat :: n <= top ==> part(n, []))
    && (forall n: nat, x, y {:trigger Joining(n, x, y)} ::
          Joining(n, x, y) && part(n, x) && part(n + |x|, y) ==> part(n, x + y))
  }

  /** Then several connections deliver one part, as long as they allow. */
  lemma {:induction false} SessionIsPart(offers: nat -> Option<seq<PublicEvent>>, top: nat,
                                         part: (nat, seq<PublicEvent>) -> bool, received: nat, budgets: seq<nat>)
    requires DeliversParts(offers, top, part) && received <= top
    ensures part(received, Session(offers, received, budgets))
    ensures |Session(offers, received, budgets)| == Min(Total(budgets), top - received)
    decreases |budgets|
  {
    if budgets != [] {
      var got := Read(offers(received), budgets[0]);
      SessionIsPart(offers, top, part, received + |got|, budgets[1..]);
      assert Joining(received, got, Session(offers, received + |got|, budgets[1..]));
      LengthsAdd(top - received, budgets[0], Total(budgets[1..]));
    }
  }

  lemma SessionIsContiguous(events: seq<PublicEvent>, offers: nat -> Option<seq<PublicEvent>>,
                            received: nat, budgets: seq<nat>)
    requires forall n: nat {:trigger offers(n)} :: n <= |events| ==> offers(n) == Some(events[n..])
    requires received <= |events|
    ensures IsPart(events, received, Session(offers, received, budgets))
    ensures |Session(offers, received, budgets)| == Min(Total(budgets), |events| - received)
  {
    var part := (n: nat, x: seq<PublicEvent>) => IsPart(events, n, x);
    forall n: nat, budget: nat | n <= |events|
      ensures part(n, Read(offers(n), budget)) && |Read(offers(n), budget)| == Min(budget, |events| - n)
    {
      ReadIsNext(events, n, budget);
    }
    forall n: nat, x, y {:trigger Joining(n, x, y)} | part(n, x) && part(n + |x|, y) ensures part(n, x + y) {
      PartsJoin(events, n, x, y);
    }
    SessionIsPart(offers, |events|, part, received, budgets);
  }

  lemma LengthsAdd(left: nat, first: nat, rest: nat)
    ensures Min(first, left) + Min(rest, left - Min(first, left)) == Min(first + rest, left)
  {
  }

  lemma PublishedIsResumable(runId: string, drafts: seq<Draft>)
    ensures Resumable(Published(runId, drafts))
  {
    var events := Published(runId, drafts);
    forall k | 0 <= k < |events| ensures ResumeAfter(events, Some(events[k].id)) == Some(events[k + 1..]) {
      ResumeReturnsRest(runId, drafts, k);
    }
  }

  /** Successive resumes neither lose nor repeat an event: together they are a contiguous part of
      the stream, starting where the client stood, as long as the connections allow. */
  lemma SessionsLoseNothing(runId: string, drafts: seq<Draft>, received: nat, budgets: seq<nat>)
    requires received <= |drafts|
    ensures var events := Published(runId, drafts);
            var got := Session((n: nat) => Offered(events, n), received, budgets);
            IsPart(events, received, got) && |got| == Min(Total(budgets), |events| - received)
  {
    var events := Published(runId, drafts);
    PublishedIsResumable(runId, drafts);
    forall n: nat | n <= |events| ensures Offered(events, n) == Some(events[n..]) {
      OfferIsRest(events, n);
    }
    SessionIsContiguous(events, (n: nat) => Offered(events, n), received, budgets);
  }
}
