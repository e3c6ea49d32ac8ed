/** The analyses as the compiler runs them: a walk that pushes and pops a stack of flows, fills a
    table of node costs and accumulates totals.  Each is proved to compute the function that the
    bounds are stated about. */
module CostAnalyzer {
  import opened Wrappers
  import opened Ast
  import opened Ir
  import opened Costs
  import opened Capabilities

  class Analyzer {
    const flows: seq<Flow>
    var visiting: seq<string>
    var out: Effects

    constructor (flows: seq<Flow>)
      ensures this.flows == flows && visiting == [] && out == NO_EFFECTS
    {
      this.flows := flows;
      visiting := [];
      out := NO_EFFECTS;
    }

    method AnalyzeBody(b: Body) returns (cost: Cost)
      modifies this
      ensures visiting == old(visiting) && out == old(out)
      ensures cost == BodyCost(flows, b, visiting)
      decreases Unvisited(flows, visiting), b, 3
    {
      ghost var stack := visiting;
      var costs := new Cost[|b.nodes|](i => ZERO);
      for i := 0 to |b.nodes|
        invariant visiting == stack && out == old(out)
        invariant forall j: nat | j < i :: costs[j] == NodeCost(flows, b, j, stack)
        invariant forall j: nat | i <= j < |b.nodes| :: costs[j] == ZERO
      {
        if b.nodes[i].live {
          assert b.nodes[i].kind < b.nodes[i] < b;
          var c := AnalyzeKind(b.nodes[i].kind);
          costs[i] := c;
        }
      }
      cost := ZERO;
      for i := 0 to |b.nodes|
        invariant cost == NodesCost(flows, b, i, stack)
      {
        cost := Cost(cost.requests + costs[i].requests, Max(cost.parallel, costs[i].parallel), 0, Some(0),
                     cost.unbounded || costs[i].unbounded);
      }
      ghost var total := cost;
      for k := 0 to |b.waves|
        invariant cost.requests == total.requests && cost.unbounded == total.unbounded
        invariant cost.parallel == Max(total.parallel, WavesCost(flows, b, k, stack).parallel)
        invariant cost.depth == WavesCost(flows, b, k, stack).depth
        invariant cost.latency == WavesCost(flows, b, k, stack).latency
      {
        var wave := b.waves[k];
        var fetches, hop, latency := 0, 0, Some(0);
        for j := 0 to |wave|
          invariant var w := WaveCost(flows, b, wave, j, stack);
                    fetches == w.parallel && hop == w.depth && latency == w.latency
        {
          var c := if wave[j] < |b.nodes| then costs[wave[j]] else ZERO;
          assert c == NodeCost(flows, b, wave[j], stack);
          if wave[j] < |b.nodes| && b.nodes[wave[j]].kind.FetchN? { fetches := fetches + 1; }
          hop := Max(hop, c.depth);
          latency := LatMax(latency, c.latency);
        }
        cost := Cost(cost.requests, Max(cost.parallel, fetches), cost.depth + hop, LatAdd(cost.latency, latency),
            cost.unbounded);
      }
    }

    method AnalyzeKind(k: NodeKind) returns (cost: Cost)
      modifies this
      ensures visiting == old(visiting) && out == old(out)
      ensures cost == KindCost(flows, k, visiting)
      decreases Unvisited(flows, visiting), k, 0
    {
      match k {
        case FetchN(f) => cost := Cost(1, 0, 1, f.latency, false);
        case ExprN(e) => cost := AnalyzeCall(e);
        case MatchN(m) =>
          cost := ZERO;
          for i := 0 to |m.arms|
            invariant visiting == old(visiting) && out == old(out)
            invariant cost == ArmsCost(flows, m.arms, i, visiting)
          {
            var arm := ZERO;
            match m.arms[i].body {
              case BodyArm(b) =>
                assert b < m.arms[i].body < m.arms[i] < m;
                arm := AnalyzeBody(b);
              case RetryArm(_) => arm := Cost(RETRY_BUDGET, 1, RETRY_BUDGET, Some(0), false);
              case ValueArm(_) =>
            }
            cost := JoinAlt(cost, arm);
          }
        case ForEachN(fe) =>
          var inner := AnalyzeBody(fe.body);
          cost := Cost(inner.requests, inner.parallel, inner.depth,
                       if inner.requests > 0 || inner.unbounded then None else inner.latency,
                       inner.unbounded || inner.requests > 0);
        case _ => cost := ZERO;
      }
    }

    /** Push the flow, analyze its body and pop it again. */
    method AnalyzeCall(e: Expr) returns (cost: Cost)
      modifies this
      ensures visiting == old(visiting) && out == old(out)
      ensures cost == CallCost(flows, e, visiting)
      decreases Unvisited(flows, visiting), e, 0
    {
      var name := CallName(e);
      if name.None? || name.value in visiting { return ZERO; }
      var flow := FindFlow(flows, name.value);
      if flow.None? { return ZERO; }
      Entered(flows, visiting, name.value);
      visiting := visiting + [name.value];
      cost := AnalyzeBody(flow.value.body);
      visiting := visiting[..|visiting| - 1];
    }

    /** Add the effects of a body to `out`. */
    method EffectsInto(b: Body)
      modifies this
      ensures visiting == old(visiting)
      ensures out == Both(old(out), BodyEffects(flows, b, visiting))
      decreases Unvisited(flows, visiting), b, 3
    {
      for i := 0 to |b.nodes|
        invariant visiting == old(visiting)
        invariant out == Both(old(out), NodesEffects(flows, b.nodes, i, visiting))
      {
        var n := b.nodes[i];
        if n.live {
          assert n.kind < n < b;
          match n.kind {
            case FetchN(f) =>
              out := Effects(out.endpoints + {f.endpoint}, out.mutates || !IsSafeMethod(f.httpMethod));
            case ExprN(e) =>
              var name := CallName(e);
              if name.Some? && name.value !in visiting && FindFlow(flows, name.value).Some? {
                Entered(flows, visiting, name.value);
                ghost var stack := visiting;
                visiting := visiting + [name.value];
                EffectsInto(FindFlow(flows, name.value).value.body);
                visiting := visiting[..|visiting| - 1];
                assert visiting == stack;
              }
            case MatchN(m) => ArmsInto(m);
            case ForEachN(fe) => EffectsInto(fe.body);
            case _ =>
          }
        }
      }
    }

    method ArmsInto(m: MatchIr)
      modifies this
      ensures visiting == old(visiting)
      ensures out == Both(old(out), ArmsEffects(flows, m.arms, |m.arms|, visiting))
      decreases Unvisited(flows, visiting), m, 0
    {
      for i := 0 to |m.arms|
        invariant visiting == old(visiting)
        invariant out == Both(old(out), ArmsEffects(flows, m.arms, i, visiting))
      {
        match m.arms[i].body {
          case BodyArm(b) =>
            assert b < m.arms[i].body < m.arms[i] < m;
            EffectsInto(b);
          case _ =>
        }
      }
    }
  }

  /** The two analyses of a body, from an empty stack. */
  method Analyze(b: Body, flows: seq<Flow>) returns (cost: Cost, effects: Effects)
    ensures cost == RequestCost(b, flows) && effects == RequestEffects(b, flows)
  {
    var a := new Analyzer(flows);
    cost := a.AnalyzeBody(b);
    a.EffectsInto(b);
    effects := a.out;
    assert Both(NO_EFFECTS, BodyEffects(flows, b, [])) == BodyEffects(flows, b, []);
  }
}
