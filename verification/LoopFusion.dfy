/** Loop fusion: the per-element GETs of a `for` loop become one batched request before it, and a
    scatter for each of them inside. */
module LoopFusion {
  import opened Wrappers
  import opened Ast
  import opened Values
  import opened Frames
  import opened Ir
  import opened Dependencies
  import opened Fusion

  /** A per-element GET whose last segment varies with the loop variable only, and whose collection
      prefix does not vary within the loop. */
  predicate Hoistable(fe: ForEachIr, n: Node) {
    hide Vars, KeyOf, Groups;
    && Batchable(n) && n.kind.f.path[|n.kind.f.path| - 1].Param?
    && fe.loopVar in Vars(KeyExpr(n), false)
    && Vars(KeyExpr(n), false) - {fe.loopVar} !! Binds(fe.body.nodes)
    && PathVars(Prefix(n.kind.f.path), false) !! Binds(fe.body.nodes) + {fe.loopVar}
  }

  function KeyExpr(n: Node): Expr
    requires Batchable(n) && n.kind.f.path[|n.kind.f.path| - 1].Param?
  {
    n.kind.f.path[|n.kind.f.path| - 1].e
  }

  /** How many fetches are hoisted among the first `k` nodes of the loop body. */
  function PlanCount(fe: ForEachIr, k: nat): nat
    requires k <= |fe.body.nodes|
  {
    hide *;
    if k == 0 then 0 else PlanCount(fe, k - 1) + if Hoistable(fe, fe.body.nodes[k - 1]) then 1 else 0
  }

  function Plans(fe: ForEachIr): nat { hide *; PlanCount(fe, |fe.body.nodes|) }

  function LoopBatchName(s: nat): string { "__loopbatch_" + NatText(s) }

  /** The one request, mapping the key over the collection. */
  function LoopBatchFetch(fe: ForEachIr, n: Node): FetchIr
    requires Hoistable(fe, n)
  {
    hide Vars, Groups;
    var f := n.kind.f;
    FetchIr("GET", f.endpoint, Prefix(f.path), [], None, None, f.latency,
            Some(BatchSpec(f.batch.value.queryParam, f.batch.value.keyField, [],
                Some(MappedIds(fe.iter, fe.loopVar, KeyExpr(n))))),
            [], false, None)
  }

  function LoopBatchNode(fe: ForEachIr, n: Node, s: nat, id: NodeId): Node
    requires Hoistable(fe, n)
  {
    hide Vars, KeyOf, Groups;
    Node(id, FetchN(LoopBatchFetch(fe, n)), Some(LoopBatchName(s)),
         Vars(fe.iter, false) + (Vars(KeyExpr(n), false) - {fe.loopVar}), {}, false, true)
  }

  function LoopScatterNode(fe: ForEachIr, n: Node, s: nat): Node
    requires Hoistable(fe, n)
  {
    hide Vars, KeyOf, Groups;
    Node(n.id, ScatterN(LoopBatchName(s), n.kind.f.batch.value.keyField, KeyExpr(n)), n.binding,
         {LoopBatchName(s)} + Vars(KeyExpr(n), false), {}, false, true)
  }

  /** Node `i` of the loop body after hoisting; names are numbered from `s`. */
  function InLoop(fe: ForEachIr, i: nat, s: nat): Node
    requires i < |fe.body.nodes|
  {
    hide *;
    var n := fe.body.nodes[i];
    if Hoistable(fe, n) then LoopScatterNode(fe, n, s + PlanCount(fe, i)) else n
  }

  function LoopBodyNodes(fe: ForEachIr, s: nat): seq<Node> {
    hide *;
    seq(|fe.body.nodes|, i requires 0 <= i < |fe.body.nodes| => InLoop(fe, i, s))
  }

  function HoistedLoop(fe: ForEachIr, s: nat): ForEachIr {
    fe.(body := Body(WithDeps(LoopBodyNodes(fe, s)), fe.body.waves))
  }

  /** The hoisted requests of the first `k` nodes of the body, to stand from position `at` on. */
  function LoopBatches(fe: ForEachIr, k: nat, s: nat, at: nat): seq<Node>
    requires k <= |fe.body.nodes|
  {
    hide *;
    if k == 0 then []
    else
      var done := LoopBatches(fe, k - 1, s, at);
      var n := fe.body.nodes[k - 1];
      if Hoistable(fe, n) then done + [LoopBatchNode(fe, n, s + PlanCount(fe, k - 1), at + |done|)] else done
  }

  function LoopNode(n: Node, s: nat, id: NodeId): Node
    requires n.kind.ForEachN?
  {
    hide *;
    var fe := HoistedLoop(n.kind.fe, s);
    n.(id := id, kind := ForEachN(fe),
       inputs := Vars(fe.iter, false) + InputsOf(fe.body.nodes) - Binds(fe.body.nodes) - {fe.loopVar})
  }

  predicate FusesLoop(n: Node) {
    hide *;
    n.kind.ForEachN? && Plans(n.kind.fe) > 0
  }

  /** What a node expands to, at position `at`, with names numbered from `s`. */
  function LoopExpand(n: Node, s: nat, at: nat): seq<Node> {
    hide Vars, Groups;
    if FusesLoop(n) then
      var fe := n.kind.fe;
      LoopBatches(fe, |fe.body.nodes|, s, at) + [LoopNode(n, s, at + |LoopBatches(fe, |fe.body.nodes|, s, at)|)]
    else [n.(id := at)]
  }

  /** The next free number after the first `k` nodes. */
  function NextName(nodes: seq<Node>, k: nat, s: nat): nat
    requires k <= |nodes|
  {
    hide Vars;
    if k == 0 then s
    else NextName(nodes, k - 1, s) + if FusesLoop(nodes[k - 1]) then Plans(nodes[k - 1].kind.fe) else 0
  }

  function LoopRebuild(nodes: seq<Node>, k: nat, s: nat): seq<Node>
    requires k <= |nodes|
  {
    hide *;
    if k == 0 then []
    else
      var done := LoopRebuild(nodes, k - 1, s);
      done + LoopExpand(nodes[k - 1], NextName(nodes, k - 1, s), |done|)
  }

  function FuseLoops(nodes: seq<Node>, s: nat): seq<Node> {
    hide *;
    if forall n | n in nodes :: !FusesLoop(n) then nodes else WithDeps(LoopRebuild(nodes, |nodes|, s))
  }

  // ---------- shape ----------

  lemma {:induction false} LoopBatchesSize(fe: ForEachIr, k: nat, s: nat, at: nat)
    requires hide *; k <= |fe.body.nodes|
    ensures |LoopBatches(fe, k, s, at)| == PlanCount(fe, k)
    ensures forall j: nat | j < PlanCount(fe, k) :: LoopBatches(fe, k, s, at)[j].id == at + j
  {
    hide Vars, KeyOf, Groups, DepsOf, HoistedLoop, Hoistable;
    if k > 0 { LoopBatchesSize(fe, k - 1, s, at); }
  }

  lemma {:induction false} LoopRebuildIds(nodes: seq<Node>, k: nat, s: nat)
    requires hide *; k <= |nodes|
    ensures forall j: nat | j < |LoopRebuild(nodes, k, s)| :: LoopRebuild(nodes, k, s)[j].id == j
  {
    hide Vars, KeyOf, Groups, DepsOf, HoistedLoop, LoopNode;
    if k > 0 {
      LoopRebuildIds(nodes, k - 1, s);
      var n := nodes[k - 1];
      if FusesLoop(n) { LoopBatchesSize(n.kind.fe, |n.kind.fe.body.nodes|, NextName(nodes, k - 1, s),
          |LoopRebuild(nodes, k - 1, s)|); }
      ExpandedIds(n, NextName(nodes, k - 1, s), |LoopRebuild(nodes, k - 1, s)|);
    }
  }

  lemma ExpandedIds(n: Node, s: nat, at: nat)
    ensures hide *; forall j: nat | j < |LoopExpand(n, s, at)| :: LoopExpand(n, s, at)[j].id == at + j
  {
    hide Vars, KeyOf, Groups, DepsOf, HoistedLoop;
    if FusesLoop(n) { LoopBatchesSize(n.kind.fe, |n.kind.fe.body.nodes|, s, at); }
  }

  lemma {:induction false} LoopRebuildPrefix(nodes: seq<Node>, i: nat, k: nat, s: nat)
    requires hide *; i <= k <= |nodes|
    ensures LoopRebuild(nodes, i, s) <= LoopRebuild(nodes, k, s)
  {
    hide Vars, KeyOf, Groups, DepsOf, HoistedLoop, LoopExpand;
    if i < k { LoopRebuildPrefix(nodes, i, k - 1, s); }
  }

  /** Ids are positions, and dependencies point backward, also inside the loops. */
  lemma LoopsWellFormed(nodes: seq<Node>, s: nat)
    requires hide *; exists n :: n in nodes && FusesLoop(n)
    ensures forall j: nat | j < |FuseLoops(nodes, s)| :: FuseLoops(nodes, s)[j].id == j
    ensures Wired(FuseLoops(nodes, s))
  {
    hide Vars, KeyOf, Groups, DepsOf, HoistedLoop, LoopRebuild;
    LoopRebuildIds(nodes, |nodes|, s);
    var r := LoopRebuild(nodes, |nodes|, s);
    forall j: nat | j < |r| ensures WithDeps(r)[j].deps == DepsOf(WithDeps(r), j) { WithDepsFixed(r, j); }
  }
}
