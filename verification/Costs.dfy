/** The static request-cost analysis of a body. */
module Costs {
  import opened Wrappers
  import opened Ast
  import opened Ir

  const RETRY_BUDGET: nat := 5

  /** `latency` is `None` when some hop has no declared latency. */
  datatype Cost = Cost(requests: nat, parallel: nat, depth: nat, latency: Option<nat>, unbounded: bool)

  const ZERO := Cost(0, 0, 0, Some(0), false)

  function LatMax(a: Option<nat>, b: Option<nat>): Option<nat> {
    if a.Some? && b.Some? then Some(Max(a.value, b.value)) else None
  }

  function LatAdd(a: Option<nat>, b: Option<nat>): Option<nat> {
    if a.Some? && b.Some? then Some(a.value + b.value) else None
  }

  /** Only one of the two runs. */
  function JoinAlt(a: Cost, b: Cost): Cost {
    Cost(Max(a.requests, b.requests), Max(a.parallel, b.parallel), Max(a.depth, b.depth),
         LatMax(a.latency, b.latency), a.unbounded || b.unbounded)
  }

  /** The flows that the walk may still enter; it shrinks with every flow on the stack. */
  function Unvisited(flows: seq<Flow>, visiting: seq<string>): set<string> {
    (set f | f in flows :: f.name) - (set v | v in visiting)
  }

  lemma Entered(flows: seq<Flow>, visiting: seq<string>, name: string)
    requires FindFlow(flows, name).Some? && name !in visiting
    ensures Unvisited(flows, visiting + [name]) < Unvisited(flows, visiting)
  {
    assert FindFlow(flows, name).value in flows;
    assert name in Unvisited(flows, visiting) && name !in Unvisited(flows, visiting + [name]);
  }

  function BodyCost(flows: seq<Flow>, b: Body, visiting: seq<string>): Cost
    decreases Unvisited(flows, visiting), b, 3, 0
  {
    hide *;
    var total := NodesCost(flows, b, |b.nodes|, visiting);
    var timed := WavesCost(flows, b, |b.waves|, visiting);
    Cost(total.requests, Max(total.parallel, timed.parallel), timed.depth, timed.latency, total.unbounded)
  }

  /** The intrinsic cost of node `i`; dead nodes cost nothing. */
  function NodeCost(flows: seq<Flow>, b: Body, i: nat, visiting: seq<string>): Cost
    decreases Unvisited(flows, visiting), b, 0, 0
  {
    hide *;
    if i < |b.nodes| && b.nodes[i].live then KindCost(flows, b.nodes[i].kind, visiting) else ZERO
  }

  function KindCost(flows: seq<Flow>, k: NodeKind, visiting: seq<string>): Cost
    decreases Unvisited(flows, visiting), k, 0, 0
  {
    hide *;
    match k
    case FetchN(f) => Cost(1, 0, 1, f.latency, false)
    case ExprN(e) => CallCost(flows, e, visiting)
    case MatchN(m) => ArmsCost(flows, m.arms, |m.arms|, visiting)
    case ForEachN(fe) =>
      var inner := BodyCost(flows, fe.body, visiting);
      Cost(inner.requests, inner.parallel, inner.depth,
           if inner.requests > 0 || inner.unbounded then None else inner.latency,
           inner.unbounded || inner.requests > 0)
    case _ => ZERO
  }

  /** A call costs what the called flow costs; a call to a flow on the stack is cut. */
  function CallCost(flows: seq<Flow>, e: Expr, visiting: seq<string>): Cost
    decreases Unvisited(flows, visiting), e, 0, 0
  {
    hide *;
    var name := CallName(e);
    if name.None? || name.value in visiting || FindFlow(flows, name.value).None? then ZERO
    else
      Entered(flows, visiting, name.value);
      BodyCost(flows, FindFlow(flows, name.value).value.body, visiting + [name.value])
  }

  /** The worst of the first `k` arms. */
  function ArmsCost(flows: seq<Flow>, arms: seq<ArmIr>, k: nat, visiting: seq<string>): Cost
    requires k <= |arms|
    decreases Unvisited(flows, visiting), arms, 1, k
  {
    hide *;
    if k == 0 then ZERO
    else JoinAlt(ArmsCost(flows, arms, k - 1, visiting), ArmCost(flows, arms[k - 1], visiting))
  }

  function ArmCost(flows: seq<Flow>, arm: ArmIr, visiting: seq<string>): Cost
    decreases Unvisited(flows, visiting), arm, 0, 0
  {
    hide *;
    match arm.body
    case BodyArm(b) => assert arm.body < arm; BodyCost(flows, b, visiting)
    case ValueArm(_) => ZERO
    case RetryArm(_) => Cost(RETRY_BUDGET, 1, RETRY_BUDGET, Some(0), false)
  }

  /** What does not depend on the schedule: requests add up, widths do not. */
  function NodesCost(flows: seq<Flow>, b: Body, k: nat, visiting: seq<string>): Cost
    requires k <= |b.nodes|
    decreases Unvisited(flows, visiting), b, 2, k
  {
    hide *;
    if k == 0 then ZERO
    else
      var c, n := NodesCost(flows, b, k - 1, visiting), NodeCost(flows, b, k - 1, visiting);
      Cost(c.requests + n.requests, Max(c.parallel, n.parallel), 0, Some(0), c.unbounded || n.unbounded)
  }

  /** One wave: its fetches run together, and the slowest member counts. */
  function WaveCost(flows: seq<Flow>, b: Body, wave: seq<NodeId>, k: nat, visiting: seq<string>): Cost
    requires k <= |wave|
    decreases Unvisited(flows, visiting), b, 1, k
  {
    hide *;
    if k == 0 then ZERO
    else
      var c, n := WaveCost(flows, b, wave, k - 1, visiting), NodeCost(flows, b, wave[k - 1], visiting);
      Cost(0, c.parallel + (if wave[k - 1] < |b.nodes| && b.nodes[wave[k - 1]].kind.FetchN? then 1 else 0),
           Max(c.depth, n.depth), LatMax(c.latency, n.latency), false)
  }

  /** The first `k` waves, one after the other. */
  function WavesCost(flows: seq<Flow>, b: Body, k: nat, visiting: seq<string>): Cost
    requires k <= |b.waves|
    decreases Unvisited(flows, visiting), b, 2, k
  {
    hide *;
    if k == 0 then ZERO
    else
      var c, w := WavesCost(flows, b, k - 1, visiting), WaveCost(flows, b, b.waves[k - 1], |b.waves[k - 1]|, visiting);
      Cost(0, Max(c.parallel, w.parallel), c.depth + w.depth, LatAdd(c.latency, w.latency), false)
  }

  /** The analysis of a whole body. */
  function RequestCost(b: Body, flows: seq<Flow>): Cost {
    BodyCost(flows, b, [])
  }
}
