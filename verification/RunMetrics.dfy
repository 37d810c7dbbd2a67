/** Token accounting: aggregation of provider usages, the merge of metrics
    across plan revisions, and the counters written to the run row. */
module RunMetrics {
  import opened Options

  datatype Usage = Usage(input: Option<nat>, output: Option<nat>, total: Option<nat>)

  datatype Metrics = Metrics(
    modelRounds: nat,
    providerAttempts: nat,
    toolCalls: nat,
    usage: Usage,
    latencyMs: real)

  datatype Effort = Effort(modelRounds: nat, providerAttempts: nat, toolCalls: nat)

  datatype Tokens = Tokens(input: nat, output: nat, total: nat)

  /** The counter columns of a run row. */
  datatype Counters = Counters(effort: Effort, tokens: Tokens, latencyMs: real)

  const ZERO_COUNTERS := Counters(Effort(0, 0, 0), Tokens(0, 0, 0), 0.0)

  function Known(values: seq<Option<nat>>): seq<nat> {
    if values == [] then []
    else KnownHead(values[0]) + Known(values[1..])
  }

  function Sum(values: seq<nat>): nat {
    if values == [] then 0 else values[0] + Sum(values[1..])
  }

  function SumKnown(values: seq<Option<nat>>): Option<nat> {
    var known := Known(values);
    if known == [] then None else Some(Sum(known))
  }

  function Inputs(usages: seq<Usage>): seq<Option<nat>> {
    seq(|usages|, i requires 0 <= i < |usages| => usages[i].input)
  }

  function Outputs(usages: seq<Usage>): seq<Option<nat>> {
    seq(|usages|, i requires 0 <= i < |usages| => usages[i].output)
  }

  function Totals(usages: seq<Usage>): seq<Option<nat>> {
    seq(|usages|, i requires 0 <= i < |usages| => usages[i].total)
  }

  function AggregateUsage(usages: seq<Usage>): Usage {
    Usage(SumKnown(Inputs(usages)), SumKnown(Outputs(usages)), SumKnown(Totals(usages)))
  }

  function SumOptional(first: Option<nat>, second: Option<nat>): Option<nat> {
    if first.None? && second.None? then None
    else Some(first.GetOr(0) + second.GetOr(0))
  }

  function MergeUsage(first: Usage, second: Usage): Usage {
    Usage(SumOptional(first.input, second.input),
          SumOptional(first.output, second.output),
          SumOptional(first.total, second.total))
  }

  function MergeMetrics(previous: Option<Metrics>, current: Metrics): Metrics {
    match previous
    case None => current
    case Some(p) =>
      Metrics(p.modelRounds + current.modelRounds,
              p.providerAttempts + current.providerAttempts,
              p.toolCalls + current.toolCalls,
              MergeUsage(p.usage, current.usage),
              p.latencyMs + current.latencyMs)
  }

  /** The counter values that a finished run writes: missing token counters become zero. */
  function PersistedCounters(m: Metrics): Counters {
    Counters(Effort(m.modelRounds, m.providerAttempts, m.toolCalls),
             Tokens(m.usage.input.GetOr(0), m.usage.output.GetOr(0), m.usage.total.GetOr(0)),
             m.latencyMs)
  }

  /** The table's check constraint on the token columns. */
  predicate TokenCheck(c: Counters) {
    c.tokens.total == c.tokens.input + c.tokens.output
  }

  predicate BalancedUsage(u: Usage) {
    u.total.GetOr(0) == u.input.GetOr(0) + u.output.GetOr(0)
  }

  /** A response that reports no counters at all, or all three consistently. */
  predicate WellReported(u: Usage) {
    || u == Usage(None, None, None)
    || (u.input.Some? && u.output.Some? && u.total.Some?
        && u.total.value == u.input.value + u.output.value)
  }

  function KnownHead(value: Option<nat>): seq<nat> {
    if value.Some? then [value.value] else []
  }

  lemma Reassociate(a: seq<nat>, b: seq<nat>, c: seq<nat>)
    ensures a + (b + c) == (a + b) + c
  {
  }

  lemma {:induction false} KnownConcat(a: seq<Option<nat>>, b: seq<Option<nat>>)
    ensures Known(a + b) == Known(a) + Known(b)
  {
    if a == [] {
      assert a + b == b;
    } else {
      assert (a + b)[0] == a[0] && (a + b)[1..] == a[1..] + b;
      KnownConcat(a[1..], b);
      Reassociate(KnownHead(a[0]), Known(a[1..]), Known(b));
    }
  }

  lemma {:induction false} SumConcat(a: seq<nat>, b: seq<nat>)
    ensures Sum(a + b) == Sum(a) + Sum(b)
  {
    if a == [] {
      assert a + b == b;
    } else {
      assert (a + b)[1..] == a[1..] + b;
      SumConcat(a[1..], b);
    }
  }

  lemma SumKnownConcat(a: seq<Option<nat>>, b: seq<Option<nat>>)
    ensures SumKnown(a + b) == SumOptional(SumKnown(a), SumKnown(b))
  {
    KnownConcat(a, b);
    SumConcat(Known(a), Known(b));
  }

  /** Merging two aggregates is aggregating the usages of both at once. */
  lemma AggregateConcat(a: seq<Usage>, b: seq<Usage>)
    ensures AggregateUsage(a + b) == MergeUsage(AggregateUsage(a), AggregateUsage(b))
  {
    assert Inputs(a + b) == Inputs(a) + Inputs(b);
    assert Outputs(a + b) == Outputs(a) + Outputs(b);
    assert Totals(a + b) == Totals(a) + Totals(b);
    SumKnownConcat(Inputs(a), Inputs(b));
    SumKnownConcat(Outputs(a), Outputs(b));
    SumKnownConcat(Totals(a), Totals(b));
  }

  function Flatten(batches: seq<seq<Usage>>): seq<Usage> {
    if batches == [] then [] else Flatten(batches[..|batches| - 1]) + batches[|batches| - 1]
  }

  /** The metrics after planning one revision per batch, merged in the order of the revisions. */
  function MergedOver(batches: seq<seq<Usage>>, meters: seq<Metrics>): Option<Metrics>
    requires |batches| == |meters|
  {
    if batches == [] then None
    else
      var last := |batches| - 1;
      Some(MergeMetrics(MergedOver(batches[..last], meters[..last]),
                        meters[last].(usage := AggregateUsage(batches[last]))))
  }

  /** Token conservation: the metrics merged over any number of revisions carry exactly
      the aggregate of every usage of every revision. */
  lemma {:induction false} MergeIsOneAggregate(batches: seq<seq<Usage>>, meters: seq<Metrics>)
    requires |batches| == |meters| > 0
    ensures MergedOver(batches, meters).Some?
    ensures MergedOver(batches, meters).value.usage == AggregateUsage(Flatten(batches))
  {
    var last := |batches| - 1;
    var before := batches[..last];
    if last == 0 {
      assert Flatten(before) == [];
      assert Flatten(batches) == batches[0];
    } else {
      MergeIsOneAggregate(before, meters[..last]);
      AggregateConcat(Flatten(before), batches[last]);
    }
  }

  function ZeroFilled(values: seq<Option<nat>>): nat {
    if values == [] then 0 else values[0].GetOr(0) + ZeroFilled(values[1..])
  }

  lemma {:induction false} SumKnownZeroFilled(values: seq<Option<nat>>)
    ensures SumKnown(values).GetOr(0) == ZeroFilled(values)
  {
    if values != [] {
      SumKnownZeroFilled(values[1..]);
      if values[0].Some? {
        SumConcat([values[0].value], Known(values[1..]));
        assert Sum([values[0].value]) == values[0].value;
      } else {
        assert Known(values) == Known(values[1..]);
      }
    }
  }

  /** What the check constraint demands of the raw responses: it accepts the row exactly when
      the reported totals add up to the reported inputs and outputs. */
  lemma TokenCheckExactly(usages: seq<Usage>, m: Metrics)
    requires m.usage == AggregateUsage(usages)
    ensures TokenCheck(PersistedCounters(m))
       <==> ZeroFilled(Totals(usages)) == ZeroFilled(Inputs(usages)) + ZeroFilled(Outputs(usages))
  {
    SumKnownZeroFilled(Inputs(usages));
    SumKnownZeroFilled(Outputs(usages));
    SumKnownZeroFilled(Totals(usages));
  }

  lemma {:induction false} WellReportedTotals(usages: seq<Usage>)
    requires forall u :: u in usages ==> WellReported(u)
    ensures ZeroFilled(Totals(usages)) == ZeroFilled(Inputs(usages)) + ZeroFilled(Outputs(usages))
  {
    if usages != [] {
      WellReportedTotals(usages[1..]);
      assert Inputs(usages)[1..] == Inputs(usages[1..]);
      assert Outputs(usages)[1..] == Outputs(usages[1..]);
      assert Totals(usages)[1..] == Totals(usages[1..]);
      assert WellReported(usages[0]);
    }
  }

  /** When every response is well reported, the finished run passes the check constraint. */
  lemma WellReportedRunPersists(batches: seq<seq<Usage>>, meters: seq<Metrics>)
    requires |batches| == |meters| > 0
    requires forall u :: u in Flatten(batches) ==> WellReported(u)
    ensures MergedOver(batches, meters).Some?
    ensures TokenCheck(PersistedCounters(MergedOver(batches, meters).value))
  {
    MergeIsOneAggregate(batches, meters);
    WellReportedTotals(Flatten(batches));
    TokenCheckExactly(Flatten(batches), MergedOver(batches, meters).value);
  }

  lemma {:induction false} ZeroFilledConcat(a: seq<Option<nat>>, b: seq<Option<nat>>)
    ensures ZeroFilled(a + b) == ZeroFilled(a) + ZeroFilled(b)
  {
    if a == [] {
      assert a + b == b;
    } else {
      assert (a + b)[0] == a[0] && (a + b)[1..] == a[1..] + b;
      ZeroFilledConcat(a[1..], b);
    }
  }

  /** Among well-reported responses one that reports a total without its parts makes the row
      unacceptable, exactly unless that total is zero. */
  lemma LoneTotalIsRefused(before: seq<Usage>, total: nat, after: seq<Usage>, m: Metrics)
    requires forall u :: u in before || u in after ==> WellReported(u)
    requires m.usage == AggregateUsage(before + [Usage(None, None, Some(total))] + after)
    ensures TokenCheck(PersistedCounters(m)) <==> total == 0
  {
    var lone := [Usage(None, None, Some(total))];
    TokenCheckExactly(before + lone + after, m);
    WellReportedTotals(before);
    WellReportedTotals(after);
    PartsAdd(before + lone, after);
    PartsAdd(before, lone);
    assert Inputs(lone) == [None] && Outputs(lone) == [None] && Totals(lone) == [Some(total)];
    assert ZeroFilled([None]) == 0 && ZeroFilled([Some(total)]) == total;
  }

  lemma PartsAdd(a: seq<Usage>, b: seq<Usage>)
    ensures ZeroFilled(Inputs(a + b)) == ZeroFilled(Inputs(a)) + ZeroFilled(Inputs(b))
    ensures ZeroFilled(Outputs(a + b)) == ZeroFilled(Outputs(a)) + ZeroFilled(Outputs(b))
    ensures ZeroFilled(Totals(a + b)) == ZeroFilled(Totals(a)) + ZeroFilled(Totals(b))
  {
    assert Inputs(a + b) == Inputs(a) + Inputs(b);
    assert Outputs(a + b) == Outputs(a) + Outputs(b);
    assert Totals(a + b) == Totals(a) + Totals(b);
    ZeroFilledConcat(Inputs(a), Inputs(b));
    ZeroFilledConcat(Outputs(a), Outputs(b));
    ZeroFilledConcat(Totals(a), Totals(b));
  }
}
