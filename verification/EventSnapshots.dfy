/** Resuming on a newer snapshot of a run: when a client that read part of an older stream ends up
    with every event of the newer one, and when it does not. */
module EventSnapshots {
  import opened Options
  import opened Sorting
  import opened AgentEvents

  /** The stored rows that a stream is projected from. */
  datatype View = View(run: RunView, approvals: seq<ApprovalView>, executions: seq<ExecutionView>)

  ghost predicate Distinct(v: View) {
    DistinctRows(v.approvals, v.executions)
  }

  function DraftsOf(v: View): seq<Draft> {
    Drafts(v.run, v.approvals, v.executions)
  }

  /** The drafts in the order of the stream. */
  function Ordered(v: View): seq<Draft> {
    Sort(DraftBefore, DraftsOf(v))
  }

  // ---------------------------------------------------------------- no duplicates

  /** A draft that comes from at most one row, and once from it, occurs at most once. */
  lemma {:induction false} FlatMapOnce<X>(f: X -> seq<Draft>, xs: seq<X>, d: Draft)
    requires forall x :: x in xs ==> multiset(f(x))[d] <= 1
    requires forall i, j :: 0 <= i < j < |xs| ==> d !in f(xs[i]) || d !in f(xs[j])
    ensures multiset(FlatMap(f, xs))[d] <= 1
  {
    if xs != [] {
      var front, last := xs[..|xs| - 1], xs[|xs| - 1];
      FlatMapOnce(f, front, d);
      if d in FlatMap(f, front) {
        var x := FromSome(f, front, d);
        var i :| 0 <= i < |front| && front[i] == x;
        assert xs[i] == x && d !in f(last);
      }
      assert d !in f(last) ==> multiset(f(last))[d] == 0;
      assert d !in FlatMap(f, front) ==> multiset(FlatMap(f, front))[d] == 0;
    }
  }

  lemma ApprovalsOnce(approvals: seq<ApprovalView>, executions: seq<ExecutionView>, d: Draft)
    requires DistinctRows(approvals, executions)
    ensures multiset(FlatMap(ApprovalDrafts, approvals))[d] <= 1
  {
    forall i, j | 0 <= i < j < |approvals|
      ensures d !in ApprovalDrafts(approvals[i]) || d !in ApprovalDrafts(approvals[j])
    {
      if d in ApprovalDrafts(approvals[i]) && d in ApprovalDrafts(approvals[j]) {
        PrefixDetermines("approval:", approvals[i].id, approvals[j].id);
        assert false;
      }
    }
    FlatMapOnce(ApprovalDrafts, approvals, d);
  }

  lemma ExecutionOnce(e: ExecutionView, d: Draft)
    ensures multiset(ExecutionDrafts(e))[d] <= 1
  {
    var drafts := ExecutionDrafts(e);
    assert |drafts| == 1 ==> drafts == [drafts[0]];
    assert |drafts| == 2 ==> drafts == [drafts[0], drafts[1]] && drafts[0].order != drafts[1].order;
  }

  lemma ExecutionsOnce(approvals: seq<ApprovalView>, executions: seq<ExecutionView>, d: Draft)
    requires DistinctRows(approvals, executions)
    ensures multiset(FlatMap(ExecutionDrafts, executions))[d] <= 1
  {
    forall e | e in executions ensures multiset(ExecutionDrafts(e))[d] <= 1 {
      ExecutionOnce(e, d);
    }
    forall i, j | 0 <= i < j < |executions|
      ensures d !in ExecutionDrafts(executions[i]) || d !in ExecutionDrafts(executions[j])
    {
      if d in ExecutionDrafts(executions[i]) && d in ExecutionDrafts(executions[j]) {
        ExecutionKeys(executions[i], executions[j], d, d);
        assert false;
      }
    }
    FlatMapOnce(ExecutionDrafts, executions, d);
  }

  lemma RunOnce(run: RunView, d: Draft)
    ensures multiset(StatusDrafts(run) + ClosingDrafts(run))[d] <= 1
  {
    var drafts := StatusDrafts(run) + ClosingDrafts(run);
    assert forall i, j :: 0 <= i < j < |drafts| ==> drafts[i].order < drafts[j].order;
    if multiset(drafts)[d] > 1 {
      TwiceIn(drafts, d);
    }
  }

  lemma {:induction false} TwiceIn(drafts: seq<Draft>, d: Draft)
    requires multiset(drafts)[d] > 1
    ensures exists i, j :: 0 <= i < j < |drafts| && drafts[i] == d == drafts[j]
  {
    var last := |drafts| - 1;
    var front := drafts[..last];
    assert drafts == front + [drafts[last]];
    if drafts[last] == d {
      assert d in multiset(front);
      var i :| 0 <= i < |front| && front[i] == d;
      assert drafts[i] == d;
    } else {
      TwiceIn(front, d);
    }
  }

  /** Where a draft of this order comes from. */
  lemma OrderTellsOrigin(v: View, d: Draft)
    ensures d in FlatMap(ApprovalDrafts, v.approvals) ==> d.order == 25
    ensures d in FlatMap(ExecutionDrafts, v.executions) ==> d.order == 30 || d.order == 40
    ensures d in StatusDrafts(v.run) + ClosingDrafts(v.run) ==> d.order in {10, 20, 80, 90}
  {
    if d in FlatMap(ApprovalDrafts, v.approvals) {
      var a := FromSome(ApprovalDrafts, v.approvals, d);
    }
    if d in FlatMap(ExecutionDrafts, v.executions) {
      var e := FromSome(ExecutionDrafts, v.executions, d);
    }
  }

  /** No draft occurs twice. */
  lemma DraftsOnce(v: View, d: Draft)
    requires Distinct(v)
    ensures multiset(DraftsOf(v))[d] <= 1
  {
    var run := StatusDrafts(v.run) + ClosingDrafts(v.run);
    var approvals, executions := FlatMap(ApprovalDrafts, v.approvals), FlatMap(ExecutionDrafts, v.executions);
    assert multiset(DraftsOf(v)) == multiset(run) + multiset(approvals) + multiset(executions);
    OrderTellsOrigin(v, d);
    RunOnce(v.run, d);
    ApprovalsOnce(v.approvals, v.executions, d);
    ExecutionsOnce(v.approvals, v.executions, d);
    assert d in run <==> multiset(run)[d] > 0;
    assert d in approvals <==> multiset(approvals)[d] > 0;
    assert d in executions <==> multiset(executions)[d] > 0;
  }

  lemma OrderedIsStrict(v: View)
    requires Distinct(v)
    ensures Strict(DraftBefore, Ordered(v)) && StrictOrder(DraftBefore)
    ensures forall d :: d in Ordered(v) <==> d in DraftsOf(v)
  {
    DraftsAreOrdered(v.run, v.approvals, v.executions);
    SortSorts(DraftBefore, DraftsOf(v));
    forall d ensures multiset(Ordered(v))[d] <= 1 && (d in Ordered(v) <==> d in DraftsOf(v)) {
      DraftsOnce(v, d);
      assert d in Ordered(v) <==> d in multiset(Ordered(v));
      assert d in DraftsOf(v) <==> d in multiset(DraftsOf(v));
    }
    SortedIsStrict(DraftBefore, Ordered(v));
  }

  // ------------------------------------------------------------ the terminal event

  /** The places of terminal drafts in a list. */
  function TerminalPlaces(drafts: seq<Draft>): set<nat> {
    set i: nat | i < |drafts| && drafts[i].payload.TerminalResult?
  }

  /** The closing draft of the run is the only one of order 90. */
  lemma OnlyClosingHasOrder90(run: RunView, approvals: seq<ApprovalView>, executions: seq<ExecutionView>, d: Draft)
    requires d in Drafts(run, approvals, executions)
    ensures d.order == 90 ==> d == ClosingDrafts(run)[1]
    ensures d.payload.TerminalResult? ==> d.order == 90
  {
    var o := OriginOf(run, approvals, executions, d);
  }

  lemma TerminalIsClosing(v: View, d: Draft)
    requires d in DraftsOf(v) && d.payload.TerminalResult?
    ensures Terminal(v.run.status) && d == ClosingDrafts(v.run)[1]
  {
    OnlyClosingHasOrder90(v.run, v.approvals, v.executions, d);
  }

  /** A stream has a terminal event, and then exactly one, if and only if the run is terminal. */
  lemma OneTerminalEventExactly(v: View)
    requires Distinct(v)
    ensures |TerminalPlaces(Ordered(v))| == if Terminal(v.run.status) then 1 else 0
  {
    OrderedIsStrict(v);
    var drafts := Ordered(v);
    forall i: nat | i in TerminalPlaces(drafts)
      ensures Terminal(v.run.status) && drafts[i] == ClosingDrafts(v.run)[1]
    {
      TerminalIsClosing(v, drafts[i]);
    }
    if Terminal(v.run.status) {
      assert ClosingDrafts(v.run)[1] in DraftsOf(v);
      OnlyPlace(drafts, ClosingDrafts(v.run)[1]);
    } else {
      assert TerminalPlaces(drafts) == {};
    }
  }

  lemma OnlyPlace(drafts: seq<Draft>, d: Draft)
    requires Strict(DraftBefore, drafts) && StrictOrder(DraftBefore) && d in drafts && d.payload.TerminalResult?
    requires forall i: nat :: i in TerminalPlaces(drafts) ==> drafts[i] == d
    ensures |TerminalPlaces(drafts)| == 1
  {
    var i: nat :| i < |drafts| && drafts[i] == d;
    assert TerminalPlaces(drafts) == {i};
  }

  // ----------------------------------------------------------- what a stream tells

  /** What the event says is what a stored row says, at the time that the row gives for it. */
  ghost predicate Says(v: View, d: Draft) {
    match d.payload
    case RunStatus(status) => status == v.run.status && d.occurredAt == v.run.updatedAt
    case NodeStatus(node) => v.run.node == Some(node) && d.occurredAt == v.run.updatedAt
    case ApprovalRequired(revision, fingerprint) =>
      exists a :: a in v.approvals && a.pending && a.revision == revision && a.fingerprint == fingerprint
                  && a.createdAt == d.occurredAt
    case ToolStarted(tool) => exists e :: e in v.executions && e.tool == tool && e.startedAt == d.occurredAt
    case ToolResult(tool, summary) =>
      exists e :: e in v.executions && e.tool == tool && e.state == Completed(d.occurredAt, summary)
    case SafeError(code) => exists e :: e in v.executions && e.state == Ended(d.occurredAt, code)
    case MetricsSnapshot(metrics) => metrics == v.run.metrics && d.occurredAt == v.run.updatedAt
    case TerminalResult(status, outcome) =>
      && Terminal(v.run.status) && status == v.run.status && outcome == v.run.summary
      && d.occurredAt == v.run.updatedAt
    case Heartbeat => !Terminal(v.run.status) && d.occurredAt == v.run.updatedAt
  }

  /** Some event of the stream says this, at this time. */
  ghost predicate Told(v: View, at: int, payload: Payload) {
    exists e :: e in Stream(v.run, v.approvals, v.executions) && e.draft.occurredAt == at && e.draft.payload == payload
  }

  ghost predicate ApprovalTold(v: View, a: ApprovalView) {
    a.pending ==> Told(v, a.createdAt, ApprovalRequired(a.revision, a.fingerprint))
  }

  ghost predicate ExecutionTold(v: View, e: ExecutionView) {
    && Told(v, e.startedAt, ToolStarted(e.tool))
    && match e.state
       case InProgress => true
       case Completed(at, summary) => Told(v, at, ToolResult(e.tool, summary))
       case Ended(at, code) => Told(v, at, SafeError(code))
  }

  ghost predicate RunTold(v: View) {
    && Told(v, v.run.updatedAt, RunStatus(v.run.status))
    && (v.run.node.Some? ==> Told(v, v.run.updatedAt, NodeStatus(v.run.node.value)))
    && Told(v, v.run.updatedAt, MetricsSnapshot(v.run.metrics))
    && Told(v, v.run.updatedAt,
            if Terminal(v.run.status) then TerminalResult(v.run.status, v.run.summary) else Heartbeat)
  }

  lemma DraftSays(v: View, d: Draft)
    requires d in DraftsOf(v)
    ensures Says(v, d)
  {
    var o := OriginOf(v.run, v.approvals, v.executions, d);
    match o {
      case FromRun =>
      case FromApproval(a) => assert a in v.approvals;
      case FromExecution(e) => assert e in v.executions;
    }
  }

  lemma DraftIsTold(v: View, d: Draft)
    requires Distinct(v) && d in DraftsOf(v)
    ensures Told(v, d.occurredAt, d.payload)
  {
    OrderedIsStrict(v);
    var i :| 0 <= i < |Ordered(v)| && Ordered(v)[i] == d;
    assert Stream(v.run, v.approvals, v.executions)[i].draft == d;
  }

  lemma ApprovalIsTold(v: View, a: ApprovalView)
    requires Distinct(v) && a in v.approvals
    ensures ApprovalTold(v, a)
  {
    if a.pending {
      var d := ApprovalDrafts(a)[0];
      InFlatMap(ApprovalDrafts, v.approvals, a, d);
      DraftIsTold(v, d);
    }
  }

  lemma ExecutionIsTold(v: View, e: ExecutionView)
    requires Distinct(v) && e in v.executions
    ensures ExecutionTold(v, e)
  {
    forall d | d in ExecutionDrafts(e) ensures Told(v, d.occurredAt, d.payload) {
      InFlatMap(ExecutionDrafts, v.executions, e, d);
      DraftIsTold(v, d);
    }
    assert ExecutionDrafts(e)[0] in ExecutionDrafts(e);
    assert !e.state.InProgress? ==> ExecutionDrafts(e)[1] in ExecutionDrafts(e);
  }

  lemma RunIsTold(v: View)
    requires Distinct(v)
    ensures RunTold(v)
  {
    forall d | d in StatusDrafts(v.run) || d in ClosingDrafts(v.run) ensures Told(v, d.occurredAt, d.payload) {
      DraftIsTold(v, d);
    }
    assert StatusDrafts(v.run)[0] in StatusDrafts(v.run);
    assert v.run.node.Some? ==> StatusDrafts(v.run)[1] in StatusDrafts(v.run);
    assert ClosingDrafts(v.run)[0] in ClosingDrafts(v.run) && ClosingDrafts(v.run)[1] in ClosingDrafts(v.run);
  }

  /** The stream tells the rows and nothing else: every event says what a row says, and every pending
      approval, every start and end of an execution, and the run's state have their event. */
  lemma StreamTellsRows(v: View)
    requires Distinct(v)
    ensures forall e :: e in Stream(v.run, v.approvals, v.executions) ==> Says(v, e.draft)
    ensures RunTold(v)
    ensures forall a :: a in v.approvals ==> ApprovalTold(v, a)
    ensures forall e :: e in v.executions ==> ExecutionTold(v, e)
  {
    OrderedIsStrict(v);
    forall e | e in Stream(v.run, v.approvals, v.executions) ensures Says(v, e.draft) {
      assert e.draft in Ordered(v);
      DraftSays(v, e.draft);
    }
    RunIsTold(v);
    forall a | a in v.approvals ensures ApprovalTold(v, a) {
      ApprovalIsTold(v, a);
    }
    forall e | e in v.executions ensures ExecutionTold(v, e) {
      ExecutionIsTold(v, e);
    }
  }

  // --------------------------------------------------------- resuming on another

  /** The drafts a client ends up with when it read `k` events of an older stream and then resumed on
      a newer one of the same run; nothing when its cursor is refused. */
  function ResumedLater(runId: string, earlier: seq<Draft>, later: seq<Draft>, k: nat): Option<seq<Draft>>
    requires 0 < k <= |earlier|
  {
    match ResumeAfter(Published(runId, later), Some(Published(runId, earlier)[k - 1].id))
    case None => None
    case Some(rest) => Some(earlier[..k] + DraftsIn(rest))
  }

  function DraftsIn(events: seq<PublicEvent>): seq<Draft> {
    seq(|events|, i requires 0 <= i < |events| => events[i].draft)
  }

  /** The position in an id counts on the newer stream: the client gets what follows place k there. */
  lemma ResumedLaterTakesPlaceK(runId: string, earlier: seq<Draft>, later: seq<Draft>, k: nat)
    requires 0 < k <= |earlier|
    ensures ResumedLater(runId, earlier, later, k) == if k <= |later| then Some(earlier[..k] + later[k..]) else None
  {
    if k <= |later| {
      SameCursor(runId, earlier, later, k);
      ResumeReturnsRest(runId, later, k - 1);
      DraftsOfRest(runId, later, k);
    } else {
      NoSuchPlace(runId, earlier, later, k);
    }
  }

  lemma SameCursor(runId: string, earlier: seq<Draft>, later: seq<Draft>, k: nat)
    requires 0 < k <= |earlier| && k <= |later|
    ensures Published(runId, earlier)[k - 1].id == Published(runId, later)[k - 1].id
  {
  }

  lemma DraftsOfRest(runId: string, drafts: seq<Draft>, k: nat)
    requires k <= |drafts|
    ensures DraftsIn(Published(runId, drafts)[k..]) == drafts[k..]
  {
  }

  lemma NoSuchPlace(runId: string, earlier: seq<Draft>, later: seq<Draft>, k: nat)
    requires |later| < k <= |earlier|
    ensures ResumeAfter(Published(runId, later), Some(Published(runId, earlier)[k - 1].id)).None?
  {
    var events, cursor := Published(runId, later), Published(runId, earlier)[k - 1].id;
    CursorAcceptedExactly(runId, later, cursor);
    forall j | 0 <= j < |events| ensures events[j].id != cursor {
      if EventId(runId, j + 1) == EventId(runId, k) {
        EventIdsDiffer(runId, j + 1, k);
      }
    }
  }

  lemma SameSuffixCancels(a: seq<Draft>, b: seq<Draft>, suffix: seq<Draft>)
    ensures multiset(a + suffix) == multiset(b + suffix) <==> multiset(a) == multiset(b)
  {
    assert multiset(a + suffix) == multiset(a) + multiset(suffix);
    assert multiset(b + suffix) == multiset(b) + multiset(suffix);
    if multiset(a + suffix) == multiset(b + suffix) {
      assert multiset(a) == multiset(a + suffix) - multiset(suffix);
      assert multiset(b) == multiset(b + suffix) - multiset(suffix);
    }
  }

  /** The client has every event of the newer stream, each once. */
  predicate CompletelyReceived(v: View, later: View, k: nat)
    requires 0 < k <= |Ordered(v)|
  {
    var got := ResumedLater(later.run.id, Ordered(v), Ordered(later), k);
    got.Some? && multiset(got.value) == multiset(Ordered(later))
  }

  lemma CompleteIsSamePrefix(runId: string, a: seq<Draft>, b: seq<Draft>, k: nat)
    requires 0 < k <= |a| && Strict(DraftBefore, a) && Strict(DraftBefore, b) && StrictOrder(DraftBefore)
    ensures var got := ResumedLater(runId, a, b, k);
            (got.Some? && multiset(got.value) == multiset(b)) <==> (k <= |b| && a[..k] == b[..k])
  {
    ResumedLaterTakesPlaceK(runId, a, b, k);
    if k <= |b| {
      SameSuffixCancels(a[..k], b[..k], b[k..]);
      assert b == b[..k] + b[k..];
      if multiset(a[..k]) == multiset(b[..k]) {
        StrictIsUnique(DraftBefore, a[..k], b[..k]);
      }
    }
  }

  /** The draft belongs to only one of the two snapshots. */
  predicate OnlyOneHas(v: View, later: View, d: Draft) {
    (d in DraftsOf(v)) != (d in DraftsOf(later))
  }

  /** On two snapshots of a run: a client that read k events of the older stream and resumes on the
      newer one ends up complete if and only if every draft that only one of them has comes after the
      last draft it read. */
  lemma ResumeIsCompleteExactly(v: View, later: View, k: nat)
    requires Distinct(v) && Distinct(later) && 0 < k <= |Ordered(v)|
    ensures CompletelyReceived(v, later, k) <==>
              forall d :: OnlyOneHas(v, later, d) ==> DraftBefore(Ordered(v)[k - 1], d)
  {
    OrderedIsStrict(v);
    OrderedIsStrict(later);
    CompleteIsSamePrefix(later.run.id, Ordered(v), Ordered(later), k);
    SamePrefixExactly(DraftBefore, Ordered(v), Ordered(later), k);
    forall d ensures OnlyOneHas(v, later, d) <==> (d in Ordered(v)) != (d in Ordered(later)) {
    }
  }

  // ------------------------------------------------------------ when it is complete

  predicate FinishedAfter(s: ExecutionState, t: int) {
    match s
    case InProgress => true
    case Completed(at, _) => at > t
    case Ended(at, _) => at > t
  }

  /** The same execution, possibly finished since time `t`. */
  predicate Continues(e: ExecutionView, later: ExecutionView, t: int) {
    || later == e
    || (e.state.InProgress? && later == e.(state := later.state) && FinishedAfter(later.state, t))
  }

  /** Since time `t` nothing but new rows and finished executions: the run row and the pending
      approvals are as they were. */
  ghost predicate OnlyNews(v: View, later: View, t: int) {
    && later.run == v.run
    && (forall a :: a in v.approvals && a.pending ==> a in later.approvals)
    && (forall a :: a in later.approvals && a.pending ==> a in v.approvals || a.createdAt > t)
    && (forall e :: e in v.executions ==> exists n :: n in later.executions && Continues(e, n, t))
    && (forall n :: n in later.executions ==>
          || (n.startedAt > t && FinishedAfter(n.state, t))
          || exists e :: e in v.executions && Continues(e, n, t))
  }

  lemma {:induction false} InFlatMap<X>(f: X -> seq<Draft>, xs: seq<X>, x: X, d: Draft)
    requires x in xs && d in f(x)
    ensures d in FlatMap(f, xs)
  {
    if x != xs[|xs| - 1] {
      InFlatMap(f, xs[..|xs| - 1], x, d);
    }
  }

  lemma OldDraftsStay(v: View, later: View, t: int, d: Draft)
    requires OnlyNews(v, later, t) && d in DraftsOf(v)
    ensures d in DraftsOf(later)
  {
    var o := OriginOf(v.run, v.approvals, v.executions, d);
    match o {
      case FromRun =>
      case FromApproval(a) => InFlatMap(ApprovalDrafts, later.approvals, a, d);
      case FromExecution(e) =>
        var n :| n in later.executions && Continues(e, n, t);
        InFlatMap(ExecutionDrafts, later.executions, n, d);
    }
  }

  lemma NewDraftsComeLater(v: View, later: View, t: int, d: Draft)
    requires OnlyNews(v, later, t) && d in DraftsOf(later) && d !in DraftsOf(v)
    ensures d.occurredAt > t
  {
    var o := OriginOf(later.run, later.approvals, later.executions, d);
    match o {
      case FromRun =>
      case FromApproval(a) =>
        if a in v.approvals {
          InFlatMap(ApprovalDrafts, v.approvals, a, d);
        }
      case FromExecution(n) =>
        if !(n.startedAt > t && FinishedAfter(n.state, t)) {
          var e :| e in v.executions && Continues(e, n, t);
          if d in ExecutionDrafts(e) {
            InFlatMap(ExecutionDrafts, v.executions, e, d);
          }
        }
    }
  }

  /** As long as the run row stays as it is and only later rows are added, resuming loses nothing. */
  lemma NewsAreDelivered(v: View, later: View, k: nat)
    requires Distinct(v) && Distinct(later) && 0 < k <= |Ordered(v)|
    requires OnlyNews(v, later, Ordered(v)[k - 1].occurredAt)
    ensures CompletelyReceived(v, later, k)
  {
    var last := Ordered(v)[k - 1];
    forall d | OnlyOneHas(v, later, d) ensures DraftBefore(last, d) {
      if d in DraftsOf(v) {
        OldDraftsStay(v, later, last.occurredAt, d);
      } else {
        NewDraftsComeLater(v, later, last.occurredAt, d);
      }
    }
    ResumeIsCompleteExactly(v, later, k);
  }

  function RunDrafts(run: RunView): seq<Draft> {
    StatusDrafts(run) + ClosingDrafts(run)
  }

  /** Once the run row has been updated, a client that had read any event of the old row is never
      complete: that event is gone, and newer ones stand before its cursor. */
  lemma UpdatedRunIsNeverComplete(v: View, later: View, k: nat, i: nat)
    requires Distinct(v) && Distinct(later) && i < k <= |Ordered(v)|
    requires later.run.updatedAt != v.run.updatedAt && Ordered(v)[i] in RunDrafts(v.run)
    ensures !CompletelyReceived(v, later, k)
  {
    OldRowIsGone(v, later, Ordered(v)[i]);
    GoneIsNeverComplete(v, later, k, i);
  }

  /** A draft that was read and is gone makes the client incomplete. */
  lemma GoneIsNeverComplete(v: View, later: View, k: nat, i: nat)
    requires Distinct(v) && Distinct(later) && i < k <= |Ordered(v)| && Ordered(v)[i] !in DraftsOf(later)
    ensures !CompletelyReceived(v, later, k)
  {
    ReadBefore(v, i, k - 1);
    ResumeIsCompleteExactly(v, later, k);
    assert OnlyOneHas(v, later, Ordered(v)[i]);
  }

  lemma ReadBefore(v: View, i: nat, j: nat)
    requires Distinct(v) && i <= j < |Ordered(v)|
    ensures Ordered(v)[i] in DraftsOf(v) && !DraftBefore(Ordered(v)[j], Ordered(v)[i])
  {
    OrderedIsStrict(v);
    NotAfter(Ordered(v), i, j);
    assert Ordered(v)[i] in Ordered(v);
  }

  lemma OldRowIsGone(v: View, later: View, d: Draft)
    requires later.run.updatedAt != v.run.updatedAt && d in RunDrafts(v.run)
    ensures d !in DraftsOf(later)
  {
    OrderTellsOrigin(v, d);
    OrderTellsOrigin(later, d);
  }

  lemma NotAfter(drafts: seq<Draft>, i: nat, j: nat)
    requires Strict(DraftBefore, drafts) && StrictOrder(DraftBefore) && i <= j < |drafts|
    ensures !DraftBefore(drafts[j], drafts[i])
  {
    if i < j {
      Asymmetric(DraftBefore, drafts[i], drafts[j]);
    }
  }

  /** Putting drafts that a stream has into order gives the stream. */
  lemma StreamInOrder(run: RunView, approvals: seq<ApprovalView>, executions: seq<ExecutionView>, sorted: seq<Draft>)
    requires DistinctRows(approvals, executions)
    requires multiset(sorted) == multiset(Drafts(run, approvals, executions)) && Sorted(DraftBefore, sorted)
    ensures Stream(run, approvals, executions) == Published(run.id, sorted)
  {
    DraftsAreOrdered(run, approvals, executions);
    SortSorts(DraftBefore, Drafts(run, approvals, executions));
    SortedIsUnique(DraftBefore, sorted, Sort(DraftBefore, Drafts(run, approvals, executions)));
  }

  function StartedRun(id: string): RunView {
    RunView(id, Running, None, None, 0, 1)
  }

  function FinishedRun(id: string): RunView {
    RunView(id, Succeeded, None, Some("done"), 0, 5)
  }

  function OneExecution(): ExecutionView {
    ExecutionView("e", "t", 2, Completed(3, "ok"))
  }

  lemma StartedStream(id: string)
    ensures Stream(StartedRun(id), [], [])
         == Published(id, StatusDrafts(StartedRun(id)) + ClosingDrafts(StartedRun(id)))
  {
    var sorted := StatusDrafts(StartedRun(id)) + ClosingDrafts(StartedRun(id));
    assert Drafts(StartedRun(id), [], []) == sorted;
    StreamInOrder(StartedRun(id), [], [], sorted);
  }

  lemma DraftsOfOneExecution(run: RunView, e: ExecutionView)
    ensures multiset(Drafts(run, [], [e]))
            == multiset(ExecutionDrafts(e)) + multiset(StatusDrafts(run)) + multiset(ClosingDrafts(run))
  {
    assert [e][..0] == [];
    assert FlatMap(ExecutionDrafts, [e]) == FlatMap(ExecutionDrafts, []) + ExecutionDrafts(e) == ExecutionDrafts(e);
  }

  function FinishedDrafts(id: string): seq<Draft> {
    ExecutionDrafts(OneExecution()) + StatusDrafts(FinishedRun(id)) + ClosingDrafts(FinishedRun(id))
  }

  lemma FinishedDraftsSorted(id: string)
    ensures Sorted(DraftBefore, FinishedDrafts(id))
  {
  }

  lemma FinishedStream(id: string)
    ensures Stream(FinishedRun(id), [], [OneExecution()]) == Published(id, FinishedDrafts(id))
  {
    DraftsOfOneExecution(FinishedRun(id), OneExecution());
    FinishedDraftsSorted(id);
    StreamInOrder(FinishedRun(id), [], [OneExecution()], FinishedDrafts(id));
  }

  /** A run that has started and one that then executed an action and finished: a client that read
      the whole first stream and resumes on the second is placed after the tool result, and never
      receives it. */
  lemma ResumeCanSkipToolResult(id: string)
    ensures var first, second := Stream(StartedRun(id), [], []), Stream(FinishedRun(id), [], [OneExecution()]);
            && |first| == 3 && |second| == 5
            && second[1].draft.payload == ToolResult("t", "ok")
            && ResumeAfter(second, Some(first[2].id)) == Some(second[3..])
            && (forall i :: 0 <= i < 3 ==> !first[i].draft.payload.ToolResult?)
            && (forall i :: 3 <= i < 5 ==> !second[i].draft.payload.ToolResult?)
  {
    StartedStream(id);
    FinishedStream(id);
    ResumeReturnsRest(id, FinishedDrafts(id), 2);
  }
}
