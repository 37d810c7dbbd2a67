/** What a run of the tool loop comes to, from the answers alone: which rounds continue, when a plan
    is returned and which one, and what the stream tells about it. */
module AgentRounds {
  import opened Options
  import opened AgentLoop

  // ------------------------------------------------------------- the answers alone

  /** The calls of the first `k` answers, in order. */
  function Batches(env: Environment, k: nat): seq<Call> {
    if k == 0 then []
    else Batches(env, k - 1) + (if env.provider(k).Responded? then env.provider(k).response.calls else [])
  }

  /** What the tools answer to these calls, in order. */
  function Results(env: Environment, calls: seq<Call>): seq<string> {
    seq(|calls|, i requires 0 <= i < |calls| => env.tool(calls[i]).GetOr(""))
  }

  function Chars(texts: seq<string>): nat {
    if texts == [] then 0 else |texts[0]| + Chars(texts[1..])
  }

  /** Every call is answered, within the limit for one result. */
  predicate ToolsAnswer(env: Environment, calls: seq<Call>) {
    forall c :: c in calls ==> env.tool(c).Some? && |env.tool(c).value| <= 6_000
  }

  /** The prompt of round `k` shows what the tools answered so far, and is accepted. */
  predicate Asked(env: Environment, k: nat)
    requires k > 0
  {
    k <= 4 && env.promptFits(Results(env, Batches(env, k - 1)))
  }

  /** The answer of round `k` is a batch of new, valid calls, and all of them are carried out. */
  predicate GoodBatch(env: Environment, k: nat, r: Response)
    requires k > 0
  {
    var before := Batches(env, k - 1);
    && r.text.None?
    && 1 <= |r.calls| <= 3 && |before| + |r.calls| <= 8
    && DistinctIds(r.calls) && Ids(before) !! Ids(r.calls) && (forall c :: c in r.calls ==> env.valid(c))
    && ToolsAnswer(env, r.calls) && Chars(Results(env, before)) + Chars(Results(env, r.calls)) <= 12_000
  }

  predicate GoodRound(env: Environment, k: nat)
    requires k > 0
  {
    Asked(env, k) && env.provider(k).Responded? && GoodBatch(env, k, env.provider(k).response)
  }

  /** The answer of round `k` is a text that is this plan. */
  predicate FinalRound(env: Environment, k: nat, plan: string)
    requires k > 0
  {
    && Asked(env, k) && env.provider(k).Responded? && env.provider(k).response.calls == []
    && env.provider(k).response.text.Some? && env.parse(env.provider(k).response.text.value) == Some(plan)
  }

  /** The machine after `k` good rounds. */
  function After(env: Environment, k: nat): Machine {
    var calls := Batches(env, k);
    Machine(k, Results(env, calls), Chars(Results(env, calls)), Ids(calls), calls, calls)
  }

  predicate GoodUpTo(env: Environment, k: nat) {
    forall j :: 1 <= j <= k ==> GoodRound(env, j)
  }

  // ---------------------------------------------------------------------- batches

  lemma {:induction false} CharsConcat(a: seq<string>, b: seq<string>)
    ensures Chars(a + b) == Chars(a) + Chars(b)
  {
    if a == [] {
      assert a + b == b;
    } else {
      assert (a + b)[0] == a[0] && (a + b)[1..] == a[1..] + b;
      CharsConcat(a[1..], b);
    }
  }

  lemma ResultsConcat(env: Environment, a: seq<Call>, b: seq<Call>)
    ensures Results(env, a + b) == Results(env, a) + Results(env, b)
  {
  }

  /** A machine that has carried out a batch completely. */
  function Charged(env: Environment, m: Machine, calls: seq<Call>): Machine {
    m.(dispatched := m.dispatched + calls, records := m.records + calls,
       feedback := m.feedback + Results(env, calls), feedbackChars := m.feedbackChars + Chars(Results(env, calls)))
  }

  lemma ChargedTwice(env: Environment, m: Machine, first: Call, rest: seq<Call>)
    ensures Charged(env, Charged(env, m, [first]), rest) == Charged(env, m, [first] + rest)
  {
    ResultsConcat(env, [first], rest);
    CharsConcat(Results(env, [first]), Results(env, rest));
    assert m.dispatched + [first] + rest == m.dispatched + ([first] + rest);
    assert m.records + [first] + rest == m.records + ([first] + rest);
    assert m.feedback + Results(env, [first]) + Results(env, rest)
        == m.feedback + (Results(env, [first]) + Results(env, rest));
  }

  lemma ChargedOne(env: Environment, m: Machine, c: Call)
    requires env.tool(c).Some?
    ensures Charged(env, m, [c])
         == m.(dispatched := m.dispatched + [c], feedbackChars := m.feedbackChars + |env.tool(c).value|,
               feedback := m.feedback + [env.tool(c).value], records := m.records + [c])
  {
    assert Results(env, [c]) == [env.tool(c).value];
    assert Chars([env.tool(c).value]) == |env.tool(c).value|;
  }

  /** A batch is carried out exactly when every call is answered within its limit and all results fit
      together; then each call is recorded and its result shown, in order. */
  lemma {:induction false} DispatchExactly(env: Environment, m: Machine, calls: seq<Call>)
    requires m.feedbackChars <= 12_000
    ensures var (after, ok) := Dispatch(env, m, calls);
            && (ok <==> ToolsAnswer(env, calls) && m.feedbackChars + Chars(Results(env, calls)) <= 12_000)
            && (ok ==> after == Charged(env, m, calls))
    decreases |calls|
  {
    if calls == [] {
      assert Results(env, []) == [];
    } else {
      var c, rest := calls[0], calls[1..];
      assert calls == [c] + rest;
      ResultsConcat(env, [c], rest);
      CharsConcat(Results(env, [c]), Results(env, rest));
      if env.tool(c).Some? {
        ChargedOne(env, m, c);
        var next := Charged(env, m, [c]);
        if |env.tool(c).value| <= 6_000 && next.feedbackChars <= 12_000 {
          DispatchExactly(env, next, rest);
          ChargedTwice(env, m, c, rest);
        }
      }
    }
  }

  // ----------------------------------------------------------------------- rounds

  lemma IdsConcat(a: seq<Call>, b: seq<Call>)
    ensures Ids(a + b) == Ids(a) + Ids(b)
  {
    forall id ensures id in Ids(a + b) <==> id in Ids(a) + Ids(b) {
      if id in Ids(a) {
        var c :| c in a && c.id == id;
        assert c in a + b;
      }
      if id in Ids(b) {
        var c :| c in b && c.id == id;
        assert c in a + b;
      }
    }
  }

  lemma GoodRoundCharges(env: Environment, k: nat)
    requires k > 0 && env.provider(k).Responded?
    ensures var calls := env.provider(k).response.calls;
            var asked := After(env, k - 1).(rounds := k, seen := Ids(Batches(env, k - 1)) + Ids(calls));
            After(env, k) == Charged(env, asked, calls)
  {
    var before, calls := Batches(env, k - 1), env.provider(k).response.calls;
    ResultsConcat(env, before, calls);
    CharsConcat(Results(env, before), Results(env, calls));
    IdsConcat(before, calls);
  }

  lemma AcceptExactly(env: Environment, k: nat, r: Response)
    requires k > 0 && env.provider(k) == Responded(r) && After(env, k - 1).feedbackChars <= 12_000
    ensures var (after, verdict) := Accept(env, After(env, k - 1).(rounds := k), r);
            && (verdict == Continue <==> GoodBatch(env, k, r))
            && (verdict == Continue ==> after == After(env, k) && after.feedbackChars <= 12_000)
            && (forall plan :: verdict == Done(plan) <==>
                  r.calls == [] && r.text.Some? && env.parse(r.text.value) == Some(plan))
            && verdict != Failed(ConfigurationError)
  {
    var m := After(env, k - 1);
    DispatchExactly(env, m.(rounds := k, seen := m.seen + Ids(r.calls)), r.calls);
    GoodRoundCharges(env, k);
  }

  /** What a round comes to after good ones: whether it continues, and where; whether it returns a
      plan, and which; and when the configuration is at fault. */
  lemma RoundExactly(env: Environment, k: nat)
    requires k > 0 && After(env, k - 1).feedbackChars <= 12_000
    ensures var (after, verdict) := Round(env, After(env, k - 1));
            && (verdict == Continue <==> GoodRound(env, k))
            && (verdict == Continue ==> after == After(env, k) && after.feedbackChars <= 12_000)
            && (forall plan :: verdict == Done(plan) <==> FinalRound(env, k, plan))
            && (verdict == Failed(ConfigurationError) <==> Asked(env, k) && env.provider(k).Misconfigured?)
  {
    if env.provider(k).Responded? {
      AcceptExactly(env, k, env.provider(k).response);
    }
  }

  /** Points the verifier at the machine after so many rounds. */
  predicate Rounds(k: nat) {
    true
  }

  /** The run from every machine after good rounds goes on, or ends as the next round does. */
  ghost predicate Goes(env: Environment, run: nat -> (Machine, Verdict), good: nat -> bool, ok: nat -> bool) {
    && (forall i: nat {:trigger Rounds(i)} :: Rounds(i) && ok(i) ==>
          && run(i) == (if good(i + 1) then run(i + 1) else Round(env, After(env, i)))
          && (good(i + 1) ==> ok(i + 1) && i < 4))
  }

  lemma {:induction false} GoesToEnd(env: Environment, run: nat -> (Machine, Verdict), good: nat -> bool,
                                     ok: nat -> bool, k: nat) returns (j: nat)
    requires Goes(env, run, good, ok) && ok(k)
    ensures j > k && !good(j) && (forall i :: k < i < j ==> good(i))
    ensures run(k) == Round(env, After(env, j - 1)) && ok(j - 1)
    decreases if k < 4 then 4 - k else 0
  {
    assert Rounds(k);
    if good(k + 1) {
      j := GoesToEnd(env, run, good, ok, k + 1);
    } else {
      j := k + 1;
    }
  }

  lemma RunGoes(env: Environment, k: nat)
    requires After(env, k).feedbackChars <= 12_000
    ensures RunFrom(env, After(env, k))
         == if GoodRound(env, k + 1) then RunFrom(env, After(env, k + 1)) else Round(env, After(env, k))
    ensures GoodRound(env, k + 1) ==> After(env, k + 1).feedbackChars <= 12_000 && k < 4
  {
    RoundExactly(env, k + 1);
    RunUnfolds(env, After(env, k));
  }

  lemma RunUnfolds(env: Environment, m: Machine)
    ensures RunFrom(env, m) == if Round(env, m).1 == Continue then RunFrom(env, Round(env, m).0) else Round(env, m)
  {
  }

  /** The run makes good rounds until one is not, and ends as that one does. */
  lemma RunEndsAt(env: Environment) returns (j: nat)
    ensures j > 0 && !GoodRound(env, j) && (forall i :: 0 < i < j ==> GoodRound(env, i))
    ensures RunFrom(env, NEW_MACHINE) == Round(env, After(env, j - 1)) && After(env, j - 1).feedbackChars <= 12_000
  {
    RunsGo(env);
    FromNothing(env);
    j := GoesToEnd(env, Runs(env), Goods(env), Fitting(env), 0);
    forall i | 0 < i < j ensures GoodRound(env, i) {
      assert Goods(env)(i);
    }
  }

  ghost function Runs(env: Environment): nat -> (Machine, Verdict) {
    (k: nat) => RunFrom(env, After(env, k))
  }

  function Goods(env: Environment): nat -> bool {
    (k: nat) => k > 0 && GoodRound(env, k)
  }

  function Fitting(env: Environment): nat -> bool {
    (k: nat) => After(env, k).feedbackChars <= 12_000
  }

  lemma RunsGo(env: Environment)
    ensures Goes(env, Runs(env), Goods(env), Fitting(env))
  {
    forall i: nat {:trigger Rounds(i)} | Fitting(env)(i)
      ensures Runs(env)(i) == (if Goods(env)(i + 1) then Runs(env)(i + 1) else Round(env, After(env, i)))
              && (Goods(env)(i + 1) ==> Fitting(env)(i + 1) && i < 4)
    {
      RunGoes(env, i);
    }
  }

  lemma FromNothing(env: Environment)
    ensures After(env, 0) == NEW_MACHINE && After(env, 0).feedbackChars <= 12_000
  {
    assert Ids([]) == {};
  }

  /** When the loop returns a plan, and which: exactly if up to four rounds of tool calls within all
      limits are followed, within the four, by a text that is that plan. */
  lemma PlanExactly(env: Environment, plan: string)
    ensures RunFrom(env, NEW_MACHINE).1 == Done(plan)
       <==> exists k: nat :: 0 < k <= 4 && GoodUpTo(env, k - 1) && FinalRound(env, k, plan)
  {
    var j := RunEndsAt(env);
    RoundExactly(env, j);
    if FinalRound(env, j, plan) {
      assert GoodUpTo(env, j - 1);
    }
    forall k: nat | 0 < k <= 4 && GoodUpTo(env, k - 1) && FinalRound(env, k, plan) ensures k == j {
      assert !GoodRound(env, k);
    }
  }

  /** Which failures are put down to the configuration: exactly those of a provider that says so. */
  lemma MisconfiguredExactly(env: Environment)
    ensures RunFrom(env, NEW_MACHINE).1 == Failed(ConfigurationError)
       <==> exists k: nat :: 0 < k <= 4 && GoodUpTo(env, k - 1) && Asked(env, k) && env.provider(k).Misconfigured?
  {
    var j := RunEndsAt(env);
    RoundExactly(env, j);
    if Asked(env, j) && env.provider(j).Misconfigured? {
      assert GoodUpTo(env, j - 1);
    }
    forall k: nat | 0 < k <= 4 && GoodUpTo(env, k - 1) && Asked(env, k) && env.provider(k).Misconfigured?
      ensures k == j
    {
      assert !GoodRound(env, k);
    }
  }

  /** After a run that returned a plan: the calls of the rounds before it, all recorded in order, with
      what the tools answered as the feedback that its prompt showed. */
  lemma PlannedMachine(env: Environment, plan: string) returns (k: nat)
    requires RunFrom(env, NEW_MACHINE).1 == Done(plan)
    ensures 0 < k <= 4 && FinalRound(env, k, plan)
    ensures var m := RunFrom(env, NEW_MACHINE).0;
            && m.rounds == k && m.records == m.dispatched == Batches(env, k - 1)
            && m.feedback == Results(env, Batches(env, k - 1)) && env.promptFits(m.feedback)
  {
    k := RunEndsAt(env);
    RoundExactly(env, k);
  }

  // ------------------------------------------------------------------- the stream

  /** Each call is announced when it starts and when it has ended, in order. */
  lemma {:induction false} ToolEventsTell(calls: seq<Call>)
    ensures |ToolEvents(calls)| == 2 * |calls|
    ensures forall i :: 0 <= i < |calls| ==> ToolEvents(calls)[2 * i] == ToolStarted(calls[i].name)
    ensures forall i :: 0 <= i < |calls| ==> ToolEvents(calls)[2 * i + 1] == ToolFinished(calls[i].name)
  {
    if calls != [] {
      var rest := calls[1..];
      ToolEventsTell(rest);
      var events := ToolEvents(calls);
      forall i | 0 <= i < |calls|
        ensures events[2 * i] == ToolStarted(calls[i].name) && events[2 * i + 1] == ToolFinished(calls[i].name)
      {
        if i > 0 {
          assert events[2 * i] == ToolEvents(rest)[2 * (i - 1)];
          assert events[2 * i + 1] == ToolEvents(rest)[2 * (i - 1) + 1];
        }
      }
    }
  }

  /** The deltas of two parts of a stream follow each other, and completions add nothing. */
  lemma {:induction false} DeltasFollow(a: seq<Chunk>, b: seq<Chunk>)
    ensures JoinedDeltas(a + b) == JoinedDeltas(a) + JoinedDeltas(b)
  {
    if a == [] {
      assert a + b == b;
    } else {
      assert (a + b)[0] == a[0] && (a + b)[1..] == a[1..] + b;
      DeltasFollow(a[1..], b);
      var first := match a[0] case Delta(t) => t case Complete(_) => [];
      assert first + (JoinedDeltas(a[1..]) + JoinedDeltas(b)) == first + JoinedDeltas(a[1..]) + JoinedDeltas(b);
    }
  }

  /** The stream completes with this response, and no later one. */
  ghost predicate CompletesWith(chunks: seq<Chunk>, r: Response) {
    exists i :: 0 <= i < |chunks| && chunks[i] == Complete(r) && forall j :: i < j < |chunks| ==> chunks[j].Delta?
  }

  lemma {:induction false} LastExactly(chunks: seq<Chunk>, r: Response)
    ensures LastResponse(chunks) == Some(r) <==> CompletesWith(chunks, r)
  {
    if chunks != [] {
      var front, last := chunks[..|chunks| - 1], chunks[|chunks| - 1];
      LastExactly(front, r);
      if last.Delta? {
        if CompletesWith(front, r) {
          var i :| 0 <= i < |front| && front[i] == Complete(r) && forall j :: i < j < |front| ==> front[j].Delta?;
          assert chunks[i] == Complete(r);
        }
        if CompletesWith(chunks, r) {
          var i :| 0 <= i < |chunks| && chunks[i] == Complete(r)
                   && forall j :: i < j < |chunks| ==> chunks[j].Delta?;
          assert front[i] == Complete(r);
        }
      } else {
        assert CompletesWith(chunks, r) <==> last == Complete(r);
      }
    }
  }

  /** A stream stands for a response exactly when it completes with it and its deltas, if there are
      any, are its text. */
  lemma StreamedExactly(chunks: seq<Chunk>, r: Response)
    ensures StreamedResponse(chunks) == Some(r) <==>
              CompletesWith(chunks, r)
              && ((exists c :: c in chunks && c.Delta?) ==> r.text == Some(JoinedDeltas(chunks)))
  {
    LastExactly(chunks, r);
  }

  /** What the stream tells about the rounds from `k + 1` to `n`, all good. */
  function RoundKinds(env: Environment, k: nat, n: nat): seq<Kind>
    decreases n - k
  {
    if k >= n then []
    else [ModelStarted]
         + ToolEvents(if env.provider(k + 1).Responded? then env.provider(k + 1).response.calls else [])
         + RoundKinds(env, k + 1, n)
  }

  lemma GoodRoundKinds(env: Environment, stream: StreamingProvider, k: nat)
    requires SameAnswers(env, stream) && After(env, k).feedbackChars <= 12_000 && GoodRound(env, k + 1)
    ensures StreamRound(env, stream, After(env, k))
         == (After(env, k + 1), Continue, [ModelStarted] + ToolEvents(env.provider(k + 1).response.calls))
    ensures After(env, k + 1).feedbackChars <= 12_000
  {
    AcceptExactly(env, k + 1, env.provider(k + 1).response);
    assert stream(k + 1).Some?;
  }

  lemma FinalRoundKinds(env: Environment, stream: StreamingProvider, k: nat, plan: string)
    requires SameAnswers(env, stream) && FinalRound(env, k + 1, plan)
    ensures StreamRound(env, stream, After(env, k)).1 == Done(plan)
    ensures StreamRound(env, stream, After(env, k)).2 == [ModelStarted, ResultReady(plan)]
  {
    assert stream(k + 1).Some?;
  }

  lemma StreamFollows(env: Environment, stream: StreamingProvider, m: Machine)
    ensures var (after, verdict, kinds) := StreamRound(env, stream, m);
            StreamFrom(env, stream, m).2
            == if verdict == Continue then kinds + StreamFrom(env, stream, after).2 else kinds
  {
  }

  lemma KindsJoin(first: seq<Kind>, rest: seq<Kind>, last: seq<Kind>)
    ensures first + (rest + last) == first + rest + last
  {
  }

  /** Parts that follow each other, put together. */
  lemma {:induction false} PartsFollow(stream: nat -> seq<Kind>, told: nat -> seq<Kind>, part: nat -> seq<Kind>,
                                       k: nat, n: nat)
    requires k <= n && told(n) == []
    requires forall i: nat {:trigger Rounds(i)} :: Rounds(i) && k <= i < n ==>
               stream(i) == part(i) + stream(i + 1) && told(i) == part(i) + told(i + 1)
    ensures stream(k) == told(k) + stream(n)
    decreases n - k
  {
    if k < n {
      assert Rounds(k);
      PartsFollow(stream, told, part, k + 1, n);
      KindsJoin(part(k), told(k + 1), stream(n));
    } else {
      assert [] + stream(n) == stream(n);
    }
  }

  lemma {:induction false} GoodRoundsFit(env: Environment, n: nat)
    requires GoodUpTo(env, n)
    ensures After(env, n).feedbackChars <= 12_000
  {
    if n > 0 {
      assert GoodRound(env, n);
      GoodRoundsFit(env, n - 1);
      AcceptExactly(env, n, env.provider(n).response);
    } else {
      FromNothing(env);
    }
  }

  lemma StreamPart(env: Environment, stream: StreamingProvider, k: nat)
    requires SameAnswers(env, stream) && GoodUpTo(env, k) && GoodRound(env, k + 1)
    ensures StreamFrom(env, stream, After(env, k)).2
         == [ModelStarted] + ToolEvents(env.provider(k + 1).response.calls)
            + StreamFrom(env, stream, After(env, k + 1)).2
  {
    GoodRoundsFit(env, k);
    GoodRoundKinds(env, stream, k);
    StreamFollows(env, stream, After(env, k));
  }

  lemma StreamEnd(env: Environment, stream: StreamingProvider, k: nat, plan: string)
    requires SameAnswers(env, stream) && FinalRound(env, k + 1, plan)
    ensures StreamFrom(env, stream, After(env, k)).2 == [ModelStarted, ResultReady(plan)]
  {
    FinalRoundKinds(env, stream, k, plan);
    StreamFollows(env, stream, After(env, k));
  }

  /** The stream of a run that returns a plan tells exactly its rounds: every request of the model and
      every call, in order, and then the plan. */
  lemma StreamTellsRounds(env: Environment, stream: StreamingProvider, n: nat, plan: string)
    requires SameAnswers(env, stream) && GoodUpTo(env, n) && FinalRound(env, n + 1, plan)
    ensures StreamFrom(env, stream, NEW_MACHINE).2 == RoundKinds(env, 0, n) + [ModelStarted, ResultReady(plan)]
  {
    StreamParts(env, stream, n);
    PartsFollow(StreamedFrom(env, stream), ToldFrom(env, n), PartOf(env), 0, n);
    StreamEnd(env, stream, n, plan);
    FromNothing(env);
  }

  ghost function StreamedFrom(env: Environment, stream: StreamingProvider): nat -> seq<Kind> {
    (i: nat) => StreamFrom(env, stream, After(env, i)).2
  }

  function ToldFrom(env: Environment, n: nat): nat -> seq<Kind> {
    (i: nat) => RoundKinds(env, i, n)
  }

  function PartOf(env: Environment): nat -> seq<Kind> {
    (i: nat) =>
      [ModelStarted] + ToolEvents(if env.provider(i + 1).Responded? then env.provider(i + 1).response.calls else [])
  }

  lemma StreamParts(env: Environment, stream: StreamingProvider, n: nat)
    requires SameAnswers(env, stream) && GoodUpTo(env, n)
    ensures forall i: nat {:trigger Rounds(i)} :: Rounds(i) && i < n ==>
              && StreamedFrom(env, stream)(i) == PartOf(env)(i) + StreamedFrom(env, stream)(i + 1)
              && ToldFrom(env, n)(i) == PartOf(env)(i) + ToldFrom(env, n)(i + 1)
  {
    forall i: nat {:trigger Rounds(i)} | i < n
      ensures StreamedFrom(env, stream)(i) == PartOf(env)(i) + StreamedFrom(env, stream)(i + 1)
      ensures ToldFrom(env, n)(i) == PartOf(env)(i) + ToldFrom(env, n)(i + 1)
    {
      assert GoodRound(env, i + 1);
      StreamPartAt(env, stream, n, i);
    }
  }

  lemma StreamPartAt(env: Environment, stream: StreamingProvider, n: nat, i: nat)
    requires i < n && SameAnswers(env, stream) && GoodUpTo(env, i) && GoodRound(env, i + 1)
    ensures StreamedFrom(env, stream)(i) == PartOf(env)(i) + StreamedFrom(env, stream)(i + 1)
    ensures ToldFrom(env, n)(i) == PartOf(env)(i) + ToldFrom(env, n)(i + 1)
  {
    StreamPart(env, stream, i);
    RoundKindsUnfold(env, i, n);
  }

  lemma RoundKindsUnfold(env: Environment, k: nat, n: nat)
    requires k < n
    ensures RoundKinds(env, k, n) == PartOf(env)(k) + RoundKinds(env, k + 1, n)
  {
  }
}
