/** The bodies the optimizer's claims are about: single assignment, recorded reads and a schedule
    that respects the dependencies. */
module Readiness {
  import opened Wrappers
  import opened Evaluator
  import opened Ir
  import opened Exec
  import opened Quiet
  import opened Dependencies

  ghost function Uses(b: Body, i: nat): set<string>
    requires i < |b.nodes|
  {
    hide *;
    KindVars(b.nodes[i].kind, true)
  }

  predicate MayBind(k: NodeKind) {
    k.FetchN? || k.LetN? || k.ScatterN? || k.ExprN? || k.MatchN?
  }

  /** Ids are positions, effects are marked, edges are as computed, and whatever a node reads
      from this body was recorded. */
  ghost predicate Recorded(b: Body) {
    hide *;
    forall i: nat | i < |b.nodes| ::
      && b.nodes[i].id == i
      && b.nodes[i].effect == IsEffect(b.nodes[i].kind)
      && (b.nodes[i].binding.Some? ==> MayBind(b.nodes[i].kind))
      && b.nodes[i].deps == DepsOf(b.nodes, i)
      && Uses(b, i) * Binds(b.nodes) <= b.nodes[i].inputs
  }

  /** No name is bound twice, or bound at or after a node that reads it. */
  ghost predicate SingleAssignment(b: Body) {
    hide *;
    && (forall i: nat, j: nat | i < j < |b.nodes| :: BindSet(b.nodes[i]) !! BindSet(b.nodes[j]))
    && (forall i: nat, j: nat | i <= j < |b.nodes| :: Uses(b, i) !! BindSet(b.nodes[j]))
  }

  /** Names that escape from nested bodies are not used by the other nodes of this body. */
  ghost predicate ScopedLeaks(b: Body) {
    hide *;
    forall i: nat, j: nat | i < |b.nodes| && j < |b.nodes| && i != j ::
      Leaks(b.nodes[i].kind) !! Uses(b, j) + BindSet(b.nodes[j])
  }

  ghost predicate SilentNodesQuiet(b: Body) {
    hide *;
    forall i: nat | i < |b.nodes| && !b.nodes[i].effect :: QuietKind(b.nodes[i].kind)
  }

  ghost predicate Sound(b: Body) {
    Recorded(b) && SingleAssignment(b) && ScopedLeaks(b) && SilentNodesQuiet(b)
  }

  /** Node `i` stands in one of the first `k` waves. */
  ghost predicate InWaves(b: Body, k: nat, i: NodeId) {
    exists w: nat :: w < k && w < |b.waves| && i in b.waves[w]
  }

  /** What node `i` depends on stands in the first `k` waves. */
  ghost predicate DepsBefore(b: Body, k: nat, i: NodeId) {
    i < |b.nodes| && forall d | d in b.nodes[i].deps :: InWaves(b, k, d)
  }

  /** Every effect is scheduled, everything scheduled comes after what it depends on, and no
      node is scheduled twice. */
  ghost predicate Scheduled(b: Body) {
    && (forall k: nat, i: nat | k < |b.waves| && i in b.waves[k] :: DepsBefore(b, k, i))
    && (forall i: nat | i < |b.nodes| && b.nodes[i].effect :: InWaves(b, |b.waves|, i))
    && (forall k: nat, x: nat, y: nat | k < |b.waves| && x < y < |b.waves[k]| :: b.waves[k][x] < b.waves[k][y])
    && (forall k: nat, l: nat, i: nat | k < l < |b.waves| && i in b.waves[k] :: i !in b.waves[l])
  }

  /** Sound and scheduled, in every nested body too; no retry arms; an iteration of a loop reads
      nothing that an earlier one wrote. */
  ghost predicate Ready(b: Body)
    decreases b
  {
    hide *;
    Sound(b) && Scheduled(b) && forall n | n in b.nodes :: ReadyKind(n.kind)
  }

  ghost predicate ReadyKind(k: NodeKind)
    decreases k
  {
    hide *;
    match k
    case MatchN(m) => forall a | a in m.arms :: ReadyArm(a)
    case ForEachN(fe) => Ready(fe.body) && BodyWrites(fe.body) !! BodyVars(fe.body, true)
    case _ => true
  }

  ghost predicate ReadyArm(a: ArmIr)
    decreases a
  {
    hide *;
    !a.body.RetryArm? && (a.body.BodyArm? ==> assert a.body < a; Ready(a.body.b))
  }

  /** Requests may reach the network in any order, but each exactly once. */
  ghost predicate FairArrival(w: World) {
    forall ids: seq<NodeId>, env: Env :: multiset(w.arrival(ids, env)) == multiset(ids)
  }

  ghost predicate ReadyProg(p: Prog) {
    FairArrival(p.world) && forall f | f in p.flows :: Ready(f.body)
  }

  // ---------- bodies whose returns come last ----------

  predicate CanReturn(k: NodeKind) {
    k.ReturnN? || (k.ForEachN? && k.fe.canReturn)
  }

  ghost predicate ReturnsLast(b: Body)
    decreases b
  {
    && (forall i: nat | i < |b.nodes| && CanReturn(b.nodes[i].kind) :: i == |b.nodes| - 1)
    && forall n | n in b.nodes :: ReturnsLastKind(n.kind)
  }

  ghost predicate ReturnsLastKind(k: NodeKind)
    decreases k
  {
    match k
    case MatchN(m) => forall a | a in m.arms :: ReturnsLastArm(a)
    case ForEachN(fe) => ReturnsLast(fe.body)
    case _ => true
  }

  ghost predicate ReturnsLastArm(a: ArmIr)
    decreases a
  {
    a.body.BodyArm? ==> assert a.body < a; ReturnsLast(a.body.b)
  }
}
