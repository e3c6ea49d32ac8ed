/** A declared `budget(...)` is a compile-time promise: what passes the check is kept by every run. */
module Budgets {
  import opened Wrappers
  import opened Evaluator
  import opened Ir
  import opened Exec
  import opened Traces
  import opened Costs
  import opened Metering
  import opened CostBounds
  import opened Capabilities
  import opened FanOut

  datatype Budget = Budget(requests: Option<nat>, parallel: Option<nat>, hops: Option<nat>, p99: Option<nat>)

  datatype Complaint =
    | Unbounded
    | TooManyRequests(worst: nat, limit: nat)
    | TooWide(worst: nat, limit: nat)
    | TooDeep(worst: nat, limit: nat)
    | TooSlow(worst: nat, limit: nat)
    | LatencyUnknown

  /** What is reported when a cost is held against a budget. */
  method CheckOne(budget: Budget, cost: Cost) returns (complaints: seq<Complaint>)
    ensures complaints == [] <==> Meets(budget, cost)
    ensures Unbounded in complaints ==> complaints == [Unbounded] && cost.unbounded
    ensures forall c | c in complaints ::
              match c
              case TooManyRequests(w, l) => w == cost.requests && budget.requests == Some(l) && w > l
              case TooWide(w, l) => w == cost.parallel && budget.parallel == Some(l) && w > l
              case TooDeep(w, l) => w == cost.depth && budget.hops == Some(l) && w > l
              case TooSlow(w, l) => cost.latency == Some(w) && budget.p99 == Some(l) && w > l
              case LatencyUnknown => cost.latency.None? && budget.p99.Some?
              case Unbounded => true
  {
    complaints := [];
    if cost.unbounded && (budget.requests.Some? || budget.parallel.Some? || budget.hops.Some? || budget.p99.Some?) {
      return [Unbounded];
    }
    if budget.requests.Some? && cost.requests > budget.requests.value {
      complaints := complaints + [TooManyRequests(cost.requests, budget.requests.value)];
    }
    if budget.parallel.Some? && cost.parallel > budget.parallel.value {
      complaints := complaints + [TooWide(cost.parallel, budget.parallel.value)];
    }
    if budget.hops.Some? && cost.depth > budget.hops.value {
      complaints := complaints + [TooDeep(cost.depth, budget.hops.value)];
    }
    if budget.p99.Some? {
      if cost.latency.None? {
        complaints := complaints + [LatencyUnknown];
      } else if cost.latency.value > budget.p99.value {
        complaints := complaints + [TooSlow(cost.latency.value, budget.p99.value)];
      }
    }
  }

  /** Whatever is limited is bounded, and within its limit. */
  predicate Meets(budget: Budget, cost: Cost) {
    && (budget.requests.Some? ==> !cost.unbounded && cost.requests <= budget.requests.value)
    && (budget.parallel.Some? ==> !cost.unbounded && cost.parallel <= budget.parallel.value)
    && (budget.hops.Some? ==> !cost.unbounded && cost.depth <= budget.hops.value)
    && (budget.p99.Some? ==> !cost.unbounded && cost.latency.Some? && cost.latency.value <= budget.p99.value)
  }

  /** A body that meets its budget keeps it in every run: in requests, in requests in flight, in
      sequential rounds and in request time. */
  lemma BudgetIsKept(p: Prog, fuel: nat, b: Body, env: Env, hist: seq<Request>, budget: Budget, took: Sent -> nat)
    requires hide *; Meets(budget, RequestCost(b, p.flows)) && Punctual(took)
    requires LaidProg(p) && Laid(b) && Enclosed(p, Walk(p.flows, b, []))
    requires Covered(p.flows, b, [], budget.hops.Some? || budget.p99.Some?)
    ensures var evs := RunBody(p, Waves, fuel, b, env, hist).evs;
            && (budget.requests.Some? ==> Sends(evs) <= budget.requests.value)
            && (budget.hops.Some? ==> Rounds(evs) <= budget.hops.value)
            && (budget.p99.Some? ==> Elapsed(evs, took) <= budget.p99.value)
            && (budget.parallel.Some? ==> forall e | e in evs && e.Round? :: |e.sent| <= budget.parallel.value)
  {
    hide RunOrder, RunWaves, RunNode, RunLoop, RunMatch, RunTail, NodeStep, RoundStep, LaunchTo, FetchOne, Prepare,
      EvalPath, Eval, ApplyPipeline, KindVars, BodyVars, RunBody, Covered, Laid, BodyCost, Walk, Enclosed;
    var evs := RunBody(p, Waves, fuel, b, env, hist).evs;
    if !RequestCost(b, p.flows).unbounded {
      BodyBound(Case(p, fuel, b, env, hist, [], budget.hops.Some? || budget.p99.Some?, took));
    }
    forall e | e in evs && e.Round? ensures |e.sent| <= RequestCost(b, p.flows).parallel {
      CapabilitiesHold(p, fuel, b, env, hist, e);
    }
  }
}
