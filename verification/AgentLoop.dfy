/** The bounded tool-calling loop: one machine, a plain driver and a streaming driver. */
module AgentLoop {
  import opened Options

  const MAX_MODEL_ROUNDS: nat := 4
  const MAX_TOOL_CALLS_PER_RESPONSE: nat := 3
  const MAX_TOTAL_TOOL_CALLS: nat := 8
  const MAX_SINGLE_TOOL_RESULT_CHARS: nat := 6_000
  const MAX_ACCUMULATED_TOOL_RESULT_CHARS: nat := 12_000

  datatype Call = Call(id: string, name: string, arguments: string)

  datatype Response = Response(text: Option<string>, calls: seq<Call>)

  datatype Answer = Responded(response: Response) | Misconfigured | Unreachable

  /** The world outside the machine: what the provider answers in each round, which prompts and
      calls are acceptable, what each dispatched call returns, and which texts are plans. */
  datatype Environment = Environment(
    provider: nat -> Answer,
    promptFits: seq<string> -> bool,
    valid: Call -> bool,
    tool: Call -> Option<string>,
    parse: string -> Option<string>)

  datatype Machine = Machine(
    rounds: nat,
    feedback: seq<string>,
    feedbackChars: nat,
    seen: set<string>,
    records: seq<Call>,
    dispatched: seq<Call>)

  const NEW_MACHINE := Machine(0, [], 0, {}, [], [])

  datatype Failure = PlanningUnavailable | ConfigurationError

  datatype Verdict = Continue | Done(plan: string) | Failed(failure: Failure)

  // -------------------------------------------------------------- the machine

  function NextRequest(env: Environment, m: Machine): (Machine, bool) {
    if m.rounds >= MAX_MODEL_ROUNDS then (m, false)
    else (m.(rounds := m.rounds + 1), env.promptFits(m.feedback))
  }

  /** Dispatch a validated batch in order, leaving at the first failure. */
  function Dispatch(env: Environment, m: Machine, calls: seq<Call>): (Machine, bool)
    decreases |calls|
  {
    if calls == [] then (m, true)
    else
      var call := calls[0];
      var started := m.(dispatched := m.dispatched + [call]);
      var result := env.tool(call);
      if result.None? || |result.value| > MAX_SINGLE_TOOL_RESULT_CHARS then (started, false)
      else
        var charged := started.(feedbackChars := m.feedbackChars + |result.value|);
        if charged.feedbackChars > MAX_ACCUMULATED_TOOL_RESULT_CHARS then (charged, false)
        else Dispatch(env, charged.(feedback := m.feedback + [result.value], records := m.records + [call]),
                      calls[1..])
  }

  /** What dispatching from call `i` on does first. */
  lemma DispatchUnfolds(env: Environment, m: Machine, calls: seq<Call>, i: nat)
    requires i < |calls|
    ensures var call, result := calls[i], env.tool(calls[i]);
            var started := m.(dispatched := m.dispatched + [call]);
            Dispatch(env, m, calls[i..]) ==
              if result.None? || |result.value| > MAX_SINGLE_TOOL_RESULT_CHARS then (started, false)
              else
                var charged := started.(feedbackChars := m.feedbackChars + |result.value|);
                if charged.feedbackChars > MAX_ACCUMULATED_TOOL_RESULT_CHARS then (charged, false)
                else Dispatch(env, charged.(feedback := m.feedback + [result.value], records := m.records + [call]),
                              calls[i + 1..])
  {
    assert calls[i..][1..] == calls[i + 1..];
  }

  function Ids(calls: seq<Call>): set<string> {
    set c | c in calls :: c.id
  }

  predicate DistinctIds(calls: seq<Call>) {
    forall i, j :: 0 <= i < j < |calls| ==> calls[i].id != calls[j].id
  }

  /** The whole batch is admissible before any of it runs. */
  predicate Admissible(env: Environment, m: Machine, calls: seq<Call>) {
    && 0 < |calls| <= MAX_TOOL_CALLS_PER_RESPONSE
    && |m.records| + |calls| <= MAX_TOTAL_TOOL_CALLS
    && DistinctIds(calls) && m.seen !! Ids(calls)
    && forall c :: c in calls ==> env.valid(c)
  }

  function Accept(env: Environment, m: Machine, r: Response): (Machine, Verdict) {
    if r.text.Some? then
      if r.calls != [] then (m, Failed(PlanningUnavailable))
      else
        var plan := env.parse(r.text.value);
        (m, if plan.Some? then Done(plan.value) else Failed(PlanningUnavailable))
    else if !Admissible(env, m, r.calls) then (m, Failed(PlanningUnavailable))
    else
      var (after, ok) := Dispatch(env, m.(seen := m.seen + Ids(r.calls)), r.calls);
      (after, if ok then Continue else Failed(PlanningUnavailable))
  }

  /** One round: request, provider answer, acceptance. */
  function Round(env: Environment, m: Machine): (Machine, Verdict) {
    var (asked, ok) := NextRequest(env, m);
    if !ok then (asked, Failed(PlanningUnavailable))
    else match env.provider(asked.rounds)
      case Misconfigured => (asked, Failed(ConfigurationError))
      case Unreachable => (asked, Failed(PlanningUnavailable))
      case Responded(r) => Accept(env, asked, r)
  }

  lemma {:induction false} DispatchKeepsRounds(env: Environment, m: Machine, calls: seq<Call>)
    ensures Dispatch(env, m, calls).0.rounds == m.rounds
    decreases |calls|
  {
    if calls != [] {
      var call := calls[0];
      var result := env.tool(call);
      if result.Some? {
        var started := m.(dispatched := m.dispatched + [call]);
        var charged := started.(feedbackChars := m.feedbackChars + |result.value|);
        DispatchKeepsRounds(env, charged.(feedback := m.feedback + [result.value], records := m.records + [call]),
                            calls[1..]);
      }
    }
  }

  lemma RoundCounts(env: Environment, m: Machine)
    ensures Round(env, m).0.rounds <= m.rounds + 1
    ensures Round(env, m).1 == Continue ==> m.rounds < MAX_MODEL_ROUNDS && Round(env, m).0.rounds == m.rounds + 1
  {
    var asked := NextRequest(env, m).0;
    if env.provider(asked.rounds).Responded? {
      var calls := env.provider(asked.rounds).response.calls;
      DispatchKeepsRounds(env, asked.(seen := asked.seen + Ids(calls)), calls);
    }
  }

  /** The plain driver from here to its end. */
  function RunFrom(env: Environment, m: Machine): (Machine, Verdict)
    decreases MAX_MODEL_ROUNDS - m.rounds
  {
    RoundCounts(env, m);
    var (after, verdict) := Round(env, m);
    if verdict == Continue then RunFrom(env, after) else (after, verdict)
  }

  // --------------------------------------------------------------- invariants

  /** A dispatched call belongs to the answer of some round, all of whose calls were valid. */
  ghost predicate FromValidBatch(env: Environment, rounds: nat, c: Call) {
    exists k: nat :: 1 <= k <= rounds && env.provider(k).Responded? && c in env.provider(k).response.calls
      && forall d :: d in env.provider(k).response.calls ==> env.valid(d)
  }

  ghost predicate DispatchLog(env: Environment, m: Machine) {
    && DistinctIds(m.dispatched) && Ids(m.dispatched) <= m.seen
    && (forall c :: c in m.dispatched ==> FromValidBatch(env, m.rounds, c))
    && m.rounds <= MAX_MODEL_ROUNDS
  }

  /** Between rounds: every dispatched call has its record, within all limits. */
  ghost predicate MachineOk(env: Environment, m: Machine) {
    && DispatchLog(env, m)
    && m.records == m.dispatched && |m.feedback| == |m.records|
    && |m.records| <= MAX_TOTAL_TOOL_CALLS
    && m.feedbackChars <= MAX_ACCUMULATED_TOOL_RESULT_CHARS
  }

  /** After a failure the last dispatched call may lack its record, and nothing else differs. */
  ghost predicate StoppedOk(env: Environment, m: Machine) {
    && DispatchLog(env, m)
    && (m.dispatched == m.records || (m.dispatched != [] && m.dispatched[..|m.dispatched| - 1] == m.records))
    && |m.dispatched| <= MAX_TOTAL_TOOL_CALLS
  }

  /** The batch stopped at its n-th call, which was dispatched but not recorded. */
  predicate BrokenOff(before: seq<Call>, calls: seq<Call>, after: Machine, n: nat) {
    n < |calls| && after.dispatched == before + calls[..n + 1] && after.records == before + calls[..n]
  }

  lemma BrokenOffLater(before: seq<Call>, calls: seq<Call>, after: Machine, n: nat)
    requires calls != [] && BrokenOff(before + [calls[0]], calls[1..], after, n)
    ensures BrokenOff(before, calls, after, n + 1)
  {
    assert [calls[0]] + calls[1..][..n + 1] == calls[..n + 2];
    assert [calls[0]] + calls[1..][..n] == calls[..n + 1];
    assert before + [calls[0]] + calls[1..][..n + 1] == before + calls[..n + 2];
    assert before + [calls[0]] + calls[1..][..n] == before + calls[..n + 1];
  }

  lemma {:induction false} DispatchKeeps(env: Environment, m: Machine, calls: seq<Call>)
    requires m.records == m.dispatched && |m.feedback| == |m.records|
    requires m.feedbackChars <= MAX_ACCUMULATED_TOOL_RESULT_CHARS
    ensures var (after, ok) := Dispatch(env, m, calls);
            && after.rounds == m.rounds && after.seen == m.seen
            && (ok ==> after.records == after.dispatched == m.dispatched + calls
                       && |after.feedback| == |after.records|
                       && after.feedbackChars <= MAX_ACCUMULATED_TOOL_RESULT_CHARS)
            && (!ok ==> exists n: nat :: BrokenOff(m.dispatched, calls, after, n))
    decreases |calls|
  {
    var (after, ok) := Dispatch(env, m, calls);
    if calls == [] {
      assert m.dispatched + calls == m.dispatched;
    } else {
      var call := calls[0];
      var result := env.tool(call);
      if result.None? || |result.value| > MAX_SINGLE_TOOL_RESULT_CHARS
         || m.feedbackChars + |result.value| > MAX_ACCUMULATED_TOOL_RESULT_CHARS {
        assert calls[..1] == [call] && m.dispatched + calls[..0] == m.dispatched;
        assert BrokenOff(m.dispatched, calls, after, 0);
      } else {
        var next := m.(dispatched := m.dispatched + [call], feedbackChars := m.feedbackChars + |result.value|,
                       feedback := m.feedback + [result.value], records := m.records + [call]);
        assert (after, ok) == Dispatch(env, next, calls[1..]);
        DispatchKeeps(env, next, calls[1..]);
        assert m.dispatched + calls == next.dispatched + calls[1..];
        if !ok {
          var n: nat :| BrokenOff(next.dispatched, calls[1..], after, n);
          BrokenOffLater(m.dispatched, calls, after, n);
        }
      }
    }
  }

  /** Appending part of an admissible batch keeps the log in order. */
  lemma LogGrows(env: Environment, m: Machine, calls: seq<Call>, n: nat, after: Machine)
    requires DispatchLog(env, m) && Admissible(env, m, calls) && n <= |calls|
    requires 1 <= m.rounds && env.provider(m.rounds).Responded? && env.provider(m.rounds).response.calls == calls
    requires after.dispatched == m.dispatched + calls[..n] && after.rounds == m.rounds
    requires after.seen == m.seen + Ids(calls)
    ensures DispatchLog(env, after)
  {
    forall c | c in after.dispatched ensures FromValidBatch(env, after.rounds, c) && c.id in after.seen {
      if c in m.dispatched {
        assert FromValidBatch(env, m.rounds, c);
        assert c.id in Ids(m.dispatched);
      } else {
        assert c in calls[..n] && c in calls;
        assert c.id in Ids(calls);
        assert env.provider(m.rounds).Responded?;
      }
    }
    forall i, j | 0 <= i < j < |after.dispatched| ensures after.dispatched[i].id != after.dispatched[j].id {
      var k := |m.dispatched|;
      if i < k <= j {
        assert after.dispatched[i] == m.dispatched[i] && after.dispatched[j] == calls[j - k];
        assert m.dispatched[i].id in Ids(m.dispatched) && calls[j - k].id in Ids(calls);
      }
    }
  }

  lemma AskKeepsLog(env: Environment, m: Machine)
    requires DispatchLog(env, m) && m.rounds < MAX_MODEL_ROUNDS
    ensures DispatchLog(env, m.(rounds := m.rounds + 1))
  {
    forall c | c in m.dispatched ensures FromValidBatch(env, m.rounds + 1, c) {
      assert FromValidBatch(env, m.rounds, c);
    }
  }

  lemma AcceptKeeps(env: Environment, m: Machine, r: Response)
    requires MachineOk(env, m) && 1 <= m.rounds && env.provider(m.rounds) == Responded(r)
    ensures var (after, verdict) := Accept(env, m, r);
            if verdict == Continue then MachineOk(env, after) else StoppedOk(env, after)
  {
    if r.text.None? && Admissible(env, m, r.calls) {
      var ready := m.(seen := m.seen + Ids(r.calls));
      DispatchKeeps(env, ready, r.calls);
      var (after, ok) := Dispatch(env, ready, r.calls);
      if ok {
        assert r.calls[..|r.calls|] == r.calls;
        LogGrows(env, m, r.calls, |r.calls|, after);
      } else {
        var n: nat :| BrokenOff(m.dispatched, r.calls, after, n);
        LogGrows(env, m, r.calls, n + 1, after);
        assert after.dispatched[..|after.dispatched| - 1] == after.records;
      }
    }
  }

  lemma RoundKeeps(env: Environment, m: Machine)
    requires MachineOk(env, m)
    ensures var (after, verdict) := Round(env, m);
            if verdict == Continue then MachineOk(env, after) else StoppedOk(env, after)
  {
    if m.rounds < MAX_MODEL_ROUNDS {
      AskKeepsLog(env, m);
      var asked := m.(rounds := m.rounds + 1);
      if env.promptFits(m.feedback) && env.provider(asked.rounds).Responded? {
        AcceptKeeps(env, asked, env.provider(asked.rounds).response);
      }
    }
  }

  lemma {:induction false} RunKeeps(env: Environment, m: Machine)
    requires MachineOk(env, m)
    ensures RunFrom(env, m).1 != Continue && StoppedOk(env, RunFrom(env, m).0)
    decreases MAX_MODEL_ROUNDS - m.rounds
  {
    RoundCounts(env, m);
    RoundKeeps(env, m);
    var (after, verdict) := Round(env, m);
    if verdict == Continue {
      RunKeeps(env, after);
    }
  }

  /** Every run: at most four rounds and eight dispatches, each call id dispatched at most once and
      only from a batch that validated as a whole, with a record for every dispatched call except
      possibly the one that failed. */
  lemma LoopIsBounded(env: Environment)
    ensures var (m, verdict) := RunFrom(env, NEW_MACHINE);
            && verdict != Continue
            && m.rounds <= 4 && |m.dispatched| <= 8
            && DistinctIds(m.dispatched)
            && (forall c :: c in m.dispatched ==> FromValidBatch(env, m.rounds, c))
            && (m.dispatched == m.records
                || (m.dispatched != [] && m.dispatched[..|m.dispatched| - 1] == m.records))
  {
    RunKeeps(env, NEW_MACHINE);
  }

  // ---------------------------------------------------------------- streaming

  datatype Chunk = Delta(text: string) | Complete(response: Response)

  /** What the streaming provider does in each round: raise, or produce chunks. */
  type StreamingProvider = nat -> Option<seq<Chunk>>

  datatype Kind =
    | RunStarted
    | ModelStarted
    | ToolStarted(name: string)
    | ToolFinished(name: string)
    | ResultReady(plan: string)
    | RunFailed

  datatype Event = Event(sequence: nat, kind: Kind)

  predicate Terminal(k: Kind) {
    k.ResultReady? || k.RunFailed?
  }

  function JoinedDeltas(chunks: seq<Chunk>): string {
    if chunks == [] then []
    else (match chunks[0] case Delta(t) => t case Complete(_) => []) + JoinedDeltas(chunks[1..])
  }

  /** The response of the last completing chunk. */
  function LastResponse(chunks: seq<Chunk>): Option<Response> {
    if chunks == [] then None
    else
      var last := chunks[|chunks| - 1];
      if last.Complete? then Some(last.response) else LastResponse(chunks[..|chunks| - 1])
  }

  predicate HasDelta(chunks: seq<Chunk>) {
    exists c :: c in chunks && c.Delta?
  }

  /** The response a stream stands for, if it is complete and consistent. */
  function StreamedResponse(chunks: seq<Chunk>): Option<Response> {
    var last := LastResponse(chunks);
    if last.None? || (HasDelta(chunks) && last.value.text != Some(JoinedDeltas(chunks))) then None
    else last
  }

  function ToolEvents(calls: seq<Call>): seq<Kind> {
    if calls == [] then [] else [ToolStarted(calls[0].name), ToolFinished(calls[0].name)] + ToolEvents(calls[1..])
  }

  lemma ToolEventsStep(calls: seq<Call>, i: nat, done: seq<Kind>)
    requires i < |calls|
    ensures done + ToolEvents(calls[i..])
         == done + [ToolStarted(calls[i].name)] + [ToolFinished(calls[i].name)] + ToolEvents(calls[i + 1..])
  {
    assert calls[i..][1..] == calls[i + 1..];
  }

  /** One streamed round: the machine, the verdict, and the kinds of the events yielded. */
  function StreamRound(env: Environment, stream: StreamingProvider, m: Machine): (Machine, Verdict, seq<Kind>) {
    var (asked, ok) := NextRequest(env, m);
    if !ok then (asked, Failed(PlanningUnavailable), [RunFailed])
    else
      var chunks := stream(asked.rounds);
      var response := if chunks.Some? then StreamedResponse(chunks.value) else None;
      if response.None? then (asked, Failed(PlanningUnavailable), [ModelStarted, RunFailed])
      else
        var (after, verdict) := Accept(env, asked, response.value);
        (after, verdict,
         [ModelStarted] + match verdict
           case Continue => ToolEvents(response.value.calls)
           case Done(plan) => [ResultReady(plan)]
           case Failed(_) => [RunFailed])
  }

  lemma StreamRoundCounts(env: Environment, stream: StreamingProvider, m: Machine)
    ensures StreamRound(env, stream, m).1 == Continue ==>
              m.rounds < MAX_MODEL_ROUNDS && StreamRound(env, stream, m).0.rounds == m.rounds + 1
  {
    var asked := NextRequest(env, m).0;
    var chunks := stream(asked.rounds);
    if chunks.Some? && StreamedResponse(chunks.value).Some? {
      var calls := StreamedResponse(chunks.value).value.calls;
      DispatchKeepsRounds(env, asked.(seen := asked.seen + Ids(calls)), calls);
    }
  }

  function StreamFrom(env: Environment, stream: StreamingProvider, m: Machine): (Machine, Verdict, seq<Kind>)
    decreases MAX_MODEL_ROUNDS - m.rounds
  {
    StreamRoundCounts(env, stream, m);
    var (after, verdict, kinds) := StreamRound(env, stream, m);
    if verdict == Continue then
      var (last, result, rest) := StreamFrom(env, stream, after);
      (last, result, kinds + rest)
    else (after, verdict, kinds)
  }

  /** The stream of each round carries the plain provider's answer, with deltas that match it; a
      plain failure of any sort is a raising or inconsistent stream. */
  ghost predicate SameAnswers(env: Environment, stream: StreamingProvider) {
    forall k: nat {:trigger stream(k)} ::
      var response := if stream(k).Some? then StreamedResponse(stream(k).value) else None;
      match env.provider(k)
      case Responded(r) => response == Some(r)
      case Misconfigured => response == None
      case Unreachable => response == None
  }

  /** The same machine, and the same plan or a failure on both sides. */
  predicate SameOutcome(plain: (Machine, Verdict), streamed: (Machine, Verdict, seq<Kind>)) {
    && plain.0 == streamed.0
    && (plain.1 == streamed.1 || (plain.1.Failed? && streamed.1.Failed?))
  }

  lemma {:induction false} DriversAgreeFrom(env: Environment, stream: StreamingProvider, m: Machine)
    requires SameAnswers(env, stream)
    ensures SameOutcome(RunFrom(env, m), StreamFrom(env, stream, m))
    decreases MAX_MODEL_ROUNDS - m.rounds
  {
    RoundCounts(env, m);
    StreamRoundCounts(env, stream, m);
    var asked := NextRequest(env, m).0;
    var answer := stream(asked.rounds);
    var (after, verdict) := Round(env, m);
    assert SameOutcome((after, verdict), StreamRound(env, stream, m));
    if verdict == Continue {
      DriversAgreeFrom(env, stream, after);
    }
  }

  /** Given the same answers, both drivers reach the same machine and the same result or failure. */
  lemma DriversAgree(env: Environment, stream: StreamingProvider)
    requires SameAnswers(env, stream)
    ensures SameOutcome(RunFrom(env, NEW_MACHINE), StreamFrom(env, stream, NEW_MACHINE))
  {
    DriversAgreeFrom(env, stream, NEW_MACHINE);
  }

  /** Exactly one terminal kind, and it comes last. */
  predicate EndsOnce(kinds: seq<Kind>) {
    && kinds != [] && Terminal(kinds[|kinds| - 1])
    && forall i :: 0 <= i < |kinds| - 1 ==> !Terminal(kinds[i])
  }

  lemma {:induction false} ToolEventsAreNotTerminal(calls: seq<Call>)
    ensures forall i :: 0 <= i < |ToolEvents(calls)| ==> !Terminal(ToolEvents(calls)[i])
  {
    if calls != [] {
      ToolEventsAreNotTerminal(calls[1..]);
    }
  }

  lemma {:induction false} StreamEndsOnce(env: Environment, stream: StreamingProvider, m: Machine)
    ensures var (_, verdict, kinds) := StreamFrom(env, stream, m);
            && verdict != Continue && EndsOnce(kinds)
            && kinds[|kinds| - 1] == (if verdict.Done? then ResultReady(verdict.plan) else RunFailed)
    decreases MAX_MODEL_ROUNDS - m.rounds
  {
    StreamRoundCounts(env, stream, m);
    var (after, verdict, kinds) := StreamRound(env, stream, m);
    if verdict == Continue {
      StreamEndsOnce(env, stream, after);
      RoundGoesOn(env, stream, m);
      GoesOnToEnd(kinds, StreamFrom(env, stream, after).2);
    } else {
      RoundEnds(env, stream, m);
    }
  }

  /** A round that goes on yields no terminal event. */
  lemma RoundGoesOn(env: Environment, stream: StreamingProvider, m: Machine)
    requires StreamRound(env, stream, m).1 == Continue
    ensures forall k :: k in StreamRound(env, stream, m).2 ==> !Terminal(k)
  {
    var calls := StreamedResponse(stream(m.rounds + 1).value).value.calls;
    ToolEventsAreNotTerminal(calls);
  }

  /** A round that ends the run yields its terminal event last. */
  lemma RoundEnds(env: Environment, stream: StreamingProvider, m: Machine)
    requires StreamRound(env, stream, m).1 != Continue
    ensures var (_, verdict, kinds) := StreamRound(env, stream, m);
            && EndsOnce(kinds)
            && kinds[|kinds| - 1] == (if verdict.Done? then ResultReady(verdict.plan) else RunFailed)
  {
  }

  lemma GoesOnToEnd(kinds: seq<Kind>, rest: seq<Kind>)
    requires EndsOnce(rest) && forall k :: k in kinds ==> !Terminal(k)
    ensures EndsOnce(kinds + rest) && (kinds + rest)[|kinds + rest| - 1] == rest[|rest| - 1]
  {
  }

  // ------------------------------------------------------------- the programs

  class AgentLoopMachine {
    const env: Environment
    var rounds: nat
    var feedback: seq<string>
    var feedbackChars: nat
    var seen: set<string>
    var records: seq<Call>
    ghost var dispatched: seq<Call>

    ghost function State(): Machine
      reads this
    {
      Machine(rounds, feedback, feedbackChars, seen, records, dispatched)
    }

    constructor (env: Environment)
      ensures State() == NEW_MACHINE && this.env == env
    {
      this.env := env;
      rounds, feedback, feedbackChars, seen, records := 0, [], 0, {}, [];
      dispatched := [];
    }

    /** Advance one model round, or refuse at the ceiling or when the prompt is too long. */
    method TakeRound() returns (ok: bool)
      modifies this
      ensures (State(), ok) == NextRequest(env, old(State()))
    {
      if rounds >= MAX_MODEL_ROUNDS {
        return false;
      }
      rounds := rounds + 1;
      ok := env.promptFits(feedback);
    }

    /** Validate one response, execute its batch, or return the final plan; `transitions` are the
        observed starts and ends of tools. */
    method AcceptResponse(r: Response) returns (verdict: Verdict, transitions: seq<Kind>)
      modifies this
      ensures (State(), verdict) == Accept(env, old(State()), r)
      ensures verdict == Continue ==> transitions == ToolEvents(r.calls)
    {
      transitions := [];
      if r.text.Some? && r.calls != [] {
        return Failed(PlanningUnavailable), transitions;
      }
      if r.text.Some? {
        var plan := env.parse(r.text.value);
        verdict := if plan.Some? then Done(plan.value) else Failed(PlanningUnavailable);
        return;
      }
      if !Admissible(env, Machine(rounds, feedback, feedbackChars, seen, records, []), r.calls) {
        return Failed(PlanningUnavailable), transitions;
      }
      seen := seen + Ids(r.calls);
      var ok;
      ok, transitions := DispatchBatch(r.calls);
      verdict := if ok then Continue else Failed(PlanningUnavailable);
    }

    /** Dispatch a validated batch call by call. */
    method DispatchBatch(calls: seq<Call>) returns (ok: bool, transitions: seq<Kind>)
      modifies this`dispatched, this`feedbackChars, this`feedback, this`records
      ensures (State(), ok) == Dispatch(env, old(State()), calls)
      ensures ok ==> transitions == ToolEvents(calls)
    {
      ghost var goal, all := Dispatch(env, State(), calls), ToolEvents(calls);
      transitions := [];
      var i := 0;
      assert calls[0..] == calls;
      while i < |calls|
        invariant 0 <= i <= |calls|
        invariant goal == Dispatch(env, State(), calls[i..])
        invariant all == transitions + ToolEvents(calls[i..])
      {
        var call := calls[i];
        DispatchUnfolds(env, State(), calls, i);
        ToolEventsStep(calls, i, transitions);
        transitions := transitions + [ToolStarted(call.name)];
        dispatched := dispatched + [call];
        var result := env.tool(call);
        if result.None? || |result.value| > MAX_SINGLE_TOOL_RESULT_CHARS {
          return false, transitions;
        }
        feedbackChars := feedbackChars + |result.value|;
        if feedbackChars > MAX_ACCUMULATED_TOOL_RESULT_CHARS {
          return false, transitions;
        }
        feedback := feedback + [result.value];
        records := records + [call];
        transitions := transitions + [ToolFinished(call.name)];
        i := i + 1;
      }
      ok := true;
    }

    /** One streamed round with the kinds of the events it yields. */
    method StreamOnce(stream: StreamingProvider) returns (verdict: Verdict, kinds: seq<Kind>)
      modifies this
      ensures (State(), verdict, kinds) == StreamRound(env, stream, old(State()))
    {
      var ok := TakeRound();
      if !ok {
        return Failed(PlanningUnavailable), [RunFailed];
      }
      kinds := [ModelStarted];
      var chunks := stream(rounds);
      var response := if chunks.Some? then StreamedResponse(chunks.value) else None;
      if response.None? {
        return Failed(PlanningUnavailable), [ModelStarted, RunFailed];
      }
      var transitions;
      verdict, transitions := AcceptResponse(response.value);
      match verdict {
        case Continue => kinds := kinds + transitions;
        case Done(plan) => kinds := kinds + [ResultReady(plan)];
        case Failed(_) => kinds := kinds + [RunFailed];
      }
    }
  }

  /** The plain driver. */
  method RunAgent(env: Environment) returns (verdict: Verdict, machine: AgentLoopMachine)
    ensures (machine.State(), verdict) == RunFrom(env, NEW_MACHINE)
  {
    machine := new AgentLoopMachine(env);
    while true
      invariant fresh(machine) && machine.env == env
      invariant RunFrom(env, machine.State()) == RunFrom(env, NEW_MACHINE)
      decreases MAX_MODEL_ROUNDS - machine.rounds
    {
      RoundCounts(env, machine.State());
      var ok := machine.TakeRound();
      if !ok {
        return Failed(PlanningUnavailable), machine;
      }
      match env.provider(machine.rounds) {
        case Misconfigured =>
          return Failed(ConfigurationError), machine;
        case Unreachable =>
          return Failed(PlanningUnavailable), machine;
        case Responded(r) =>
          var transitions;
          verdict, transitions := machine.AcceptResponse(r);
          if verdict != Continue {
            return;
          }
      }
    }
  }

  function Numbered(kinds: seq<Kind>, first: nat): seq<Event> {
    seq(|kinds|, i requires 0 <= i < |kinds| => Event(first + i, kinds[i]))
  }

  /** The streaming driver: the same machine, and events numbered one after the other. */
  method StreamAgent(env: Environment, stream: StreamingProvider)
    returns (events: seq<Event>, verdict: Verdict, ghost machine: Machine)
    ensures (machine, verdict) == (StreamFrom(env, stream, NEW_MACHINE).0, StreamFrom(env, stream, NEW_MACHINE).1)
    ensures events == Numbered([RunStarted] + StreamFrom(env, stream, NEW_MACHINE).2, 1)
  {
    var loop := new AgentLoopMachine(env);
    events, verdict := StreamRounds(loop, stream);
    machine := loop.State();
  }

  method StreamRounds(loop: AgentLoopMachine, stream: StreamingProvider)
    returns (events: seq<Event>, verdict: Verdict)
    modifies loop
    ensures loop.State() == StreamFrom(loop.env, stream, old(loop.State())).0
    ensures verdict == StreamFrom(loop.env, stream, old(loop.State())).1
    ensures events == Numbered([RunStarted] + StreamFrom(loop.env, stream, old(loop.State())).2, 1)
  {
    events := [Event(1, RunStarted)];
    ghost var goal := StreamFrom(loop.env, stream, loop.State());
    ghost var done: seq<Kind> := [];
    assert done + goal.2 == goal.2;
    while true
      invariant events == Numbered([RunStarted] + done, 1)
      invariant goal == Prefixed(done, StreamFrom(loop.env, stream, loop.State()))
      decreases MAX_MODEL_ROUNDS - loop.rounds
    {
      ghost var before := loop.State();
      StreamUnfolds(loop.env, stream, before, done);
      var kinds;
      verdict, kinds := loop.StreamOnce(stream);
      events := Extended(events, done, kinds);
      done := done + kinds;
      if verdict != Continue {
        return;
      }
    }
  }

  /** Number the next kinds after the events so far. */
  method Extended(events: seq<Event>, ghost done: seq<Kind>, kinds: seq<Kind>) returns (all: seq<Event>)
    requires events == Numbered([RunStarted] + done, 1)
    ensures all == Numbered([RunStarted] + (done + kinds), 1)
  {
    NumberedConcat([RunStarted] + done, kinds, 1);
    assert [RunStarted] + done + kinds == [RunStarted] + (done + kinds);
    all := events + Numbered(kinds, |events| + 1);
  }

  ghost function Prefixed(done: seq<Kind>, r: (Machine, Verdict, seq<Kind>)): (Machine, Verdict, seq<Kind>) {
    (r.0, r.1, done + r.2)
  }

  lemma StreamUnfolds(env: Environment, stream: StreamingProvider, m: Machine, done: seq<Kind>)
    ensures var (after, verdict, kinds) := StreamRound(env, stream, m);
            Prefixed(done, StreamFrom(env, stream, m))
            == (if verdict == Continue then Prefixed(done + kinds, StreamFrom(env, stream, after))
                else (after, verdict, done + kinds))
            && (verdict == Continue ==> m.rounds < MAX_MODEL_ROUNDS && after.rounds == m.rounds + 1)
  {
    var (after, verdict, kinds) := StreamRound(env, stream, m);
    StreamRoundCounts(env, stream, m);
    if verdict == Continue {
      var rest := StreamFrom(env, stream, after).2;
      assert done + (kinds + rest) == (done + kinds) + rest;
    }
  }

  lemma NumberedConcat(a: seq<Kind>, b: seq<Kind>, first: nat)
    ensures Numbered(a + b, first) == Numbered(a, first) + Numbered(b, first + |a|)
  {
  }

  /** Numbered from one without gaps, one terminal event, and it is the last. */
  lemma StreamIsWellFormed(env: Environment, stream: StreamingProvider)
    ensures var kinds := [RunStarted] + StreamFrom(env, stream, NEW_MACHINE).2;
            var events := Numbered(kinds, 1);
            && EndsOnce(kinds)
            && (forall i :: 0 <= i < |events| ==> events[i].sequence == i + 1 && events[i].kind == kinds[i])
  {
    StreamEndsOnce(env, stream, NEW_MACHINE);
  }
}
