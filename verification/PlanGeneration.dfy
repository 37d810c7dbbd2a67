/** The bounded retry around one plan proposal, and what its token counters stand for. */
module PlanGeneration {
  import opened Options
  import opened RunMetrics
  import opened AgentState

  const PLANNING_MAX_ATTEMPTS := 2

  /** One call of the model provider. A response is usable when it is plain text that parses as a
      proposal; its usage counts either way. */
  datatype Attempt =
    | Responded(usage: Usage, usable: bool, proposal: Proposal, finishedAt: real)
    | Retryable
    | Misconfigured
    | Broken

  datatype Generation =
    | Generated(proposal: Proposal, metrics: Metrics)
    | ConfigurationError
    | Unavailable

  /** The attempt is followed by another one, if any is left. */
  predicate TriesAgain(a: Attempt) {
    a == Retryable || (a.Responded? && !a.usable)
  }

  /** The usages reported by the first `n` attempts. */
  function Reported(attempts: nat -> Attempt, n: nat): seq<Usage> {
    if n == 0 then []
    else Reported(attempts, n - 1) + (if attempts(n - 1).Responded? then [attempts(n - 1).usage] else [])
  }

  /** The attempt that settles the generation; the bound if none does. */
  function Settling(attempts: nat -> Attempt, from: nat): (k: nat)
    requires from <= PLANNING_MAX_ATTEMPTS
    ensures from <= k <= PLANNING_MAX_ATTEMPTS
    ensures forall j: nat :: from <= j < k ==> TriesAgain(attempts(j))
    ensures k < PLANNING_MAX_ATTEMPTS ==> !TriesAgain(attempts(k))
    decreases PLANNING_MAX_ATTEMPTS - from
  {
    if from == PLANNING_MAX_ATTEMPTS || !TriesAgain(attempts(from)) then from else Settling(attempts, from + 1)
  }

  /** Ask the provider until an attempt settles the matter. A plan is generated exactly when the
      settling attempt brought a usable response and the clock did not go back; its metrics count
      the attempts made and aggregate every usage reported, also those of unusable responses. */
  method GeneratePlanProposal(ready: bool, attempts: nat -> Attempt, startedAt: real)
    returns (g: Generation, calls: nat)
    ensures !ready ==> g == Unavailable && calls == 0
    ensures ready ==> calls == (if Settling(attempts, 0) < PLANNING_MAX_ATTEMPTS then Settling(attempts, 0) + 1
                                else PLANNING_MAX_ATTEMPTS)
    ensures ready ==> var k := Settling(attempts, 0);
              && (g.Generated? <==>
                    k < PLANNING_MAX_ATTEMPTS && attempts(k).Responded? && attempts(k).finishedAt >= startedAt)
              && (g.ConfigurationError? <==> k < PLANNING_MAX_ATTEMPTS && attempts(k).Misconfigured?)
    ensures g.Generated? ==>
              && calls > 0 && attempts(calls - 1).Responded? && g.proposal == attempts(calls - 1).proposal
              && g.metrics == Metrics(1, calls, 0, AggregateUsage(Reported(attempts, calls)),
                                      (attempts(calls - 1).finishedAt - startedAt) * 1000.0)
  {
    calls := 0;
    if !ready {
      return Unavailable, calls;
    }
    var usages: seq<Usage> := [];
    while calls < PLANNING_MAX_ATTEMPTS
      invariant calls <= PLANNING_MAX_ATTEMPTS
      invariant usages == Reported(attempts, calls)
      invariant Settling(attempts, calls) == Settling(attempts, 0)
    {
      var attempt := attempts(calls);
      calls := calls + 1;
      if attempt.Responded? {
        usages := usages + [attempt.usage];
        if attempt.usable {
          if attempt.finishedAt < startedAt {
            return Unavailable, calls;
          }
          var latency := (attempt.finishedAt - startedAt) * 1000.0;
          return Generated(attempt.proposal, Metrics(1, calls, 0, AggregateUsage(usages), latency)), calls;
        }
      } else if attempt.Misconfigured? {
        return ConfigurationError, calls;
      } else if attempt.Broken? {
        return Unavailable, calls;
      }
    }
    g := Unavailable;
  }

  lemma {:induction false} ReportedAreFrom(attempts: nat -> Attempt, n: nat, u: Usage) returns (k: nat)
    requires u in Reported(attempts, n)
    ensures k < n && attempts(k).Responded? && attempts(k).usage == u
  {
    if attempts(n - 1).Responded? && attempts(n - 1).usage == u {
      k := n - 1;
    } else {
      k := ReportedAreFrom(attempts, n - 1, u);
    }
  }

  /** Responses with consistent counters, usable or not, make the plan's counters consistent. */
  lemma GeneratedPlanIsBalanced(attempts: nat -> Attempt, calls: nat)
    requires forall k: nat :: k < calls && attempts(k).Responded? ==> WellReported(attempts(k).usage)
    ensures BalancedUsage(AggregateUsage(Reported(attempts, calls)))
  {
    var usages := Reported(attempts, calls);
    forall u | u in usages ensures WellReported(u) {
      var k := ReportedAreFrom(attempts, calls, u);
    }
    WellReportedTotals(usages);
    SumKnownZeroFilled(Inputs(usages));
    SumKnownZeroFilled(Outputs(usages));
    SumKnownZeroFilled(Totals(usages));
  }
}
