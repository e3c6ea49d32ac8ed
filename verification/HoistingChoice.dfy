/** Which requests of a loop are moved out of it, told by the loop and its fetches alone. */
module HoistingChoice {
  import opened Wrappers
  import opened Ast
  import opened Frames
  import opened Ir
  import opened Fusion
  import opened FusionChoice
  import opened LoopFusion
  import opened LoopFusionRun
  import P = LoopFusionPass

  function LastSegment(n: Node): PathSeg
    requires Joinable(n)
  {
    hide KeyOf, Vars, Groups, FuseLoops, LoopRebuild;
    n.kind.f.path[|n.kind.f.path| - 1]
  }

  /** The expressions of the segments before the last read `x`. */
  predicate PrefixReads(n: Node, x: string)
    requires Joinable(n)
  {
    hide KeyOf, Vars, Groups, FuseLoops, LoopRebuild;
    var path := n.kind.f.path;
    exists t | 0 <= t < |path| - 1 :: path[t].Param? && x in Vars(path[t].e, false)
  }

  /** A bound GET of a batched endpoint whose last segment alone varies with the loop: it reads the loop variable
      and otherwise, like the segments before it, nothing that the loop binds. */
  ghost predicate PerElement(fe: ForEachIr, n: Node) {
    hide *;
    && Joinable(n) && LastSegment(n).Param?
    && fe.loopVar in Vars(LastSegment(n).e, false) && !PrefixReads(n, fe.loopVar)
    && forall m | m in fe.body.nodes && m.binding.Some? ::
         && !PrefixReads(n, m.binding.value)
         && (m.binding.value in Vars(LastSegment(n).e, false) ==> m.binding.value == fe.loopVar)
  }

  /** One request for the last segment of `n` at every element, as `n` asks and unchecked. */
  predicate AsksEach(out: Node, fe: ForEachIr, n: Node) {
    hide KeyOf, Vars, Groups, FuseLoops, LoopRebuild;
    && Joinable(n) && LastSegment(n).Param? && !out.effect
    && var f, b := n.kind.f, n.kind.f.batch.value;
    && out.kind == FetchN(FetchIr("GET", f.endpoint, f.path[..|f.path| - 1], [], None, None, f.latency,
         Some(BatchSpec(b.queryParam, b.keyField, [], Some(MappedIds(fe.iter, fe.loopVar, LastSegment(n).e)))),
         [], false, None))
  }

  predicate PicksEach(out: Node, n: Node, name: Option<string>) {
    hide KeyOf, Vars, Groups, FuseLoops, LoopRebuild;
    && Joinable(n) && LastSegment(n).Param? && name.Some? && out.binding == n.binding
    && out.kind == ScatterN(name.value, n.kind.f.batch.value.keyField, LastSegment(n).e)
  }

  lemma {:induction false} PathReads(path: seq<PathSeg>, x: string)
    ensures hide *;
            x in PathVars(path, false) <==> exists t | 0 <= t < |path| :: path[t].Param? && x in Vars(path[t].e, false)
  {
    hide Vars;
    if path != [] {
      PathReads(path[1..], x);
      forall t | 0 <= t < |path| - 1 ensures path[1..][t] == path[t + 1] {}
      if t :| 0 <= t < |path| && path[t].Param? && x in Vars(path[t].e, false) {
        if t > 0 { assert path[1..][t - 1] == path[t]; }
      }
    }
  }

  lemma PrefixReadsOf(n: Node, x: string)
    requires hide KeyOf, Vars, Groups, FuseLoops, LoopRebuild; Joinable(n)
    ensures x in PathVars(Prefix(n.kind.f.path), false) <==> PrefixReads(n, x)
  {
    hide Vars, PathVars;
    var path := n.kind.f.path;
    PathReads(Prefix(path), x);
    forall t | 0 <= t < |path| - 1 ensures Prefix(path)[t] == path[t] {}
  }

  lemma HoistableExactly(fe: ForEachIr, n: Node)
    ensures hide *; Hoistable(fe, n) <==> PerElement(fe, n)
  {
    hide Vars, PathVars, PrefixReads;
    assert Batchable(n) <==> Joinable(n);
    if Joinable(n) && LastSegment(n).Param? {
      forall x ensures x in PathVars(Prefix(n.kind.f.path), false) <==> PrefixReads(n, x) { PrefixReadsOf(n, x); }
      assert KeyExpr(n) == LastSegment(n).e;
      assert forall m | m in fe.body.nodes && m.binding.Some? :: m.binding.value in Binds(fe.body.nodes);
    }
  }

  // ---------- what becomes of each node ----------

  /** Node `m` of the loop body after the pass: a scatter of a batch that stands before the loop, or as it was. */
  ghost predicate Turned(fe: ForEachIr, n: Node, m: Node, out: seq<Node>, at: nat) {
    hide *;
    if PerElement(fe, n) then
      exists q: nat | q < at && q < |out| :: AsksEach(out[q], fe, n) && PicksEach(m, n, out[q].binding)
    else SameWork(m, n)
  }

  ghost predicate KeepsLoop(fe: ForEachIr, ge: ForEachIr, out: seq<Node>, at: nat) {
    hide *;
    && ge.loopVar == fe.loopVar && ge.iter == fe.iter && ge.canReturn == fe.canReturn
    && |ge.body.nodes| == |fe.body.nodes|
    && forall j: nat | j < |fe.body.nodes| :: Turned(fe, fe.body.nodes[j], ge.body.nodes[j], out, at)
  }

  ghost predicate Stands(n: Node, out: seq<Node>, at: nat) {
    hide *;
    && at < |out| && out[at].binding == n.binding && out[at].effect == n.effect
    && if n.kind.ForEachN? then out[at].kind.ForEachN? && KeepsLoop(n.kind.fe, out[at].kind.fe, out, at)
       else out[at].kind == n.kind
  }

  /** What stands at `q` for no node asks for a fetch of the loop that comes next. */
  ghost predicate AsksNext(nodes: seq<Node>, out: seq<Node>, q: nat, place: seq<nat>, i: nat) {
    hide *;
    && i < |nodes| && i < |place| && q < place[i] && (i > 0 ==> place[i - 1] < q)
    && q < |out| && nodes[i].kind.ForEachN?
    && exists n :: n in nodes[i].kind.fe.body.nodes && PerElement(nodes[i].kind.fe, n)
                   && AsksEach(out[q], nodes[i].kind.fe, n)
  }

  function Place(nodes: seq<Node>, s: nat, i: nat): nat
    requires i < |nodes|
  {
    hide *;
    if P.Pos(nodes, i + 1, s) == 0 then 0 else P.Pos(nodes, i + 1, s) - 1
  }

  lemma {:induction false} NonePlanned(fe: ForEachIr, k: nat)
    requires hide *; k <= |fe.body.nodes| && PlanCount(fe, k) == 0
    ensures forall j: nat | j < k :: !Hoistable(fe, fe.body.nodes[j])
  {
    hide Hoistable;
    if k > 0 { NonePlanned(fe, k - 1); }
  }

  lemma {:induction false} PlanAt(fe: ForEachIr, k: nat, d: nat) returns (j: nat)
    requires hide *; k <= |fe.body.nodes| && d < PlanCount(fe, k)
    ensures j < k && Hoistable(fe, fe.body.nodes[j]) && PlanCount(fe, j) == d
  {
    hide Hoistable;
    if d < PlanCount(fe, k - 1) { j := PlanAt(fe, k - 1, d); } else { j := k - 1; }
  }

  lemma Unfused(n: Node, out: seq<Node>, at: nat)
    requires hide *; !FusesLoop(n) && DoesWork(out, at, n)
    ensures Stands(n, out, at)
  {
    hide Hoistable, PerElement;
    if n.kind.ForEachN? {
      var fe := n.kind.fe;
      NonePlanned(fe, |fe.body.nodes|);
      forall j: nat | j < |fe.body.nodes| ensures Turned(fe, fe.body.nodes[j], fe.body.nodes[j], out, at) {
        HoistableExactly(fe, fe.body.nodes[j]);
      }
    }
  }

  lemma BatchAsksEach(fe: ForEachIr, n: Node, s: nat, o: Node)
    requires hide *; Hoistable(fe, n)
    requires var b := LoopBatchNode(fe, n, s, 0); o.kind == b.kind && o.binding == b.binding && o.effect == b.effect
    ensures AsksEach(o, fe, n) && PicksEach(LoopScatterNode(fe, n, s), n, o.binding)
  {
    hide Vars, PathVars;
  }

  lemma TurnedInLoop(fe: ForEachIr, j: nat, s: nat, out: seq<Node>, from: nat, m: Node)
    requires hide *; j < |fe.body.nodes| && BatchesPlaced(out, fe, s, from)
    requires m.kind == InLoop(fe, j, s).kind && m.binding == InLoop(fe, j, s).binding
    requires m.effect == InLoop(fe, j, s).effect
    ensures PlanCount(fe, j) <= Plans(fe) && Turned(fe, fe.body.nodes[j], m, out, from + Plans(fe))
  {
    hide Hoistable, LoopBatchNode, LoopScatterNode, PerElement, AsksEach, PicksEach;
    var n := fe.body.nodes[j];
    HoistableExactly(fe, n);
    PlansGrow(fe, j, |fe.body.nodes|);
    if Hoistable(fe, n) {
      var q := from + PlanCount(fe, j);
      PlansGrow(fe, j + 1, |fe.body.nodes|);
      assert DoesWork(out, q, LoopBatchNode(fe, n, s + PlanCount(fe, j), 0));
      BatchAsksEach(fe, n, s + PlanCount(fe, j), out[q]);
      SamePick(m, fe, n, s, j, out[q]);
    }
  }

  lemma SamePick(m: Node, fe: ForEachIr, n: Node, s: nat, j: nat, o: Node)
    requires hide *; j < |fe.body.nodes| && n == fe.body.nodes[j] && Hoistable(fe, n)
    requires m.kind == InLoop(fe, j, s).kind && m.binding == InLoop(fe, j, s).binding
    requires AsksEach(o, fe, n) && PicksEach(LoopScatterNode(fe, n, s + PlanCount(fe, j)), n, o.binding)
    ensures AsksEach(o, fe, n) && PicksEach(m, n, o.binding)
  {
    hide Hoistable, LoopScatterNode;
  }

  lemma {:induction false} PlansGrow(fe: ForEachIr, j: nat, k: nat)
    requires hide *; j <= k <= |fe.body.nodes|
    ensures PlanCount(fe, j) <= PlanCount(fe, k)
  {
    hide Hoistable;
    if j < k { PlansGrow(fe, j, k - 1); }
  }

  lemma Fused(nodes: seq<Node>, s: nat, i: nat)
    requires hide KeyOf, Vars, Groups, FuseLoops, LoopRebuild; i < |nodes| && FusesLoop(nodes[i])
    ensures Place(nodes, s, i) == P.Pos(nodes, i, s) + Plans(nodes[i].kind.fe)
    ensures Stands(nodes[i], FuseLoops(nodes, s), Place(nodes, s, i))
  {
    hide Hoistable, FuseLoops, LoopRebuild, PerElement, Turned, BatchesPlaced, InLoop;
    P.LoopIsPlaced(nodes, i, s);
    var fe, from, start, out := nodes[i].kind.fe, NextName(nodes, i, s), P.Pos(nodes, i, s), FuseLoops(nodes, s);
    var at := start + Plans(fe);
    hide P.Pos, NextName, Plans;
    assert DoesWork(out, at, LoopNode(nodes[i], from, 0)) && Place(nodes, s, i) == at;
    var ge := out[at].kind.fe;
    assert ge == HoistedLoop(fe, from);
    forall j: nat | j < |fe.body.nodes| ensures Turned(fe, fe.body.nodes[j], ge.body.nodes[j], out, at) {
      TurnedInLoop(fe, j, from, out, start, ge.body.nodes[j]);
    }
  }

  lemma {:induction false} NothingFused(nodes: seq<Node>, s: nat, k: nat)
    requires hide *; k <= |nodes| && forall n | n in nodes :: !FusesLoop(n)
    ensures P.Pos(nodes, k, s) == k && FuseLoops(nodes, s) == nodes
  {
    hide FusesLoop, NextName;
    if k > 0 {
      NothingFused(nodes, s, k - 1);
      assert nodes[k - 1] in nodes;
    }
  }

  lemma StandsThere(nodes: seq<Node>, s: nat, i: nat)
    requires hide *; i < |nodes|
    ensures P.Pos(nodes, i, s) <= Place(nodes, s, i) && P.Pos(nodes, i + 1, s) == Place(nodes, s, i) + 1
    ensures Stands(nodes[i], FuseLoops(nodes, s), Place(nodes, s, i))
  {
    hide FusesLoop, FuseLoops, LoopRebuild, Stands, P.Pos;
    if FusesLoop(nodes[i]) {
      Fused(nodes, s, i);
      P.LoopIsPlaced(nodes, i, s);
    } else if exists n :: n in nodes && FusesLoop(n) {
      P.OtherIsPlaced(nodes, i, s);
      Unfused(nodes[i], FuseLoops(nodes, s), Place(nodes, s, i));
    } else {
      NothingFused(nodes, s, i);
      NothingFused(nodes, s, i + 1);
      Unfused(nodes[i], nodes, i);
    }
  }

  lemma {:induction false} PosCovers(nodes: seq<Node>, s: nat, q: nat, k: nat) returns (i: nat)
    requires hide *; k <= |nodes| && q < P.Pos(nodes, k, s)
    ensures i < k && P.Pos(nodes, i, s) <= q < P.Pos(nodes, i + 1, s)
  {
    hide LoopExpand, NextName;
    assert P.Pos(nodes, 0, s) == 0;
    hide P.Pos;
    if P.Pos(nodes, k - 1, s) <= q { i := k - 1; } else { i := PosCovers(nodes, s, q, k - 1); }
  }

  lemma NothingAdded(nodes: seq<Node>, s: nat, q: nat, place: seq<nat>)
    requires hide *; |place| == |nodes| && forall j: nat | j < |nodes| :: place[j] == Place(nodes, s, j)
    requires q < |FuseLoops(nodes, s)| && forall n | n in nodes :: !FusesLoop(n)
    ensures q in place
  {
    hide FusesLoop, LoopRebuild;
    NothingFused(nodes, s, 0);
    NothingFused(nodes, s, q + 1);
    assert place[q] == q;
  }

  /** A position that no node has is one of the batches just before a loop. */
  lemma AddedForLoop(nodes: seq<Node>, s: nat, q: nat, place: seq<nat>) returns (i: nat)
    requires hide *; |place| == |nodes| && forall j: nat | j < |nodes| :: place[j] == Place(nodes, s, j)
    requires q < |FuseLoops(nodes, s)| && q !in place
    ensures AsksNext(nodes, FuseLoops(nodes, s), q, place, i)
  {
    hide FusesLoop, LoopRebuild, Stands, Hoistable, PerElement, LoopBatchNode, AsksEach, PicksEach;
    if forall n | n in nodes :: !FusesLoop(n) {
      NothingAdded(nodes, s, q, place);
      assert false;
    }
    assert |FuseLoops(nodes, s)| == P.Pos(nodes, |nodes|, s);
    i := PosCovers(nodes, s, q, |nodes|);
    hide FuseLoops, P.Pos, Place;
    StandsThere(nodes, s, i);
    assert place[i] in place;
    if i > 0 { StandsThere(nodes, s, i - 1); }
    LoopOfBatch(nodes, s, q, i);
  }

  lemma LoopOfBatch(nodes: seq<Node>, s: nat, q: nat, i: nat)
    requires hide *; i < |nodes| && P.Pos(nodes, i, s) <= q < Place(nodes, s, i) && q < |FuseLoops(nodes, s)|
    requires exists n :: n in nodes && FusesLoop(n)
    ensures nodes[i].kind.ForEachN?
    ensures exists n :: n in nodes[i].kind.fe.body.nodes && PerElement(nodes[i].kind.fe, n)
                        && AsksEach(FuseLoops(nodes, s)[q], nodes[i].kind.fe, n)
  {
    hide FuseLoops, LoopRebuild, Hoistable, PerElement, AsksEach, PicksEach, LoopBatchNode, P.Pos, Stands;
    if !FusesLoop(nodes[i]) { P.OtherIsPlaced(nodes, i, s); StandsThere(nodes, s, i); assert false; }
    Fused(nodes, s, i);
    P.LoopIsPlaced(nodes, i, s);
    var fe := nodes[i].kind.fe;
    var j := PlanAt(fe, |fe.body.nodes|, q - P.Pos(nodes, i, s));
    var n := fe.body.nodes[j];
    HoistableExactly(fe, n);
    hide Place;
    BatchAsksEach(fe, n, NextName(nodes, i, s) + PlanCount(fe, j), FuseLoops(nodes, s)[q]);
  }

  /** Loop fusion keeps the order of the nodes, and of the nodes in each loop.  A fetch becomes a scatter of a
      batch exactly when its last segment alone varies with the loop; the batch asks once for every element and
      stands before the loop.  Everything else stays what it was, and nothing else is added. */
  lemma HoistsExactly(nodes: seq<Node>, s: nat) returns (place: seq<nat>)
    ensures hide *; |place| == |nodes| && Increasing(place)
    ensures forall i: nat | i < |nodes| :: Stands(nodes[i], FuseLoops(nodes, s), place[i])
    ensures forall q: nat | q < |FuseLoops(nodes, s)| && q !in place ::
              exists i :: AsksNext(nodes, FuseLoops(nodes, s), q, place, i)
  {
    hide FuseLoops, Stands, AsksNext, Place, P.Pos;
    place := seq(|nodes|, i requires 0 <= i < |nodes| => Place(nodes, s, i));
    forall i: nat | i < |nodes| ensures Stands(nodes[i], FuseLoops(nodes, s), place[i]) { StandsThere(nodes, s, i); }
    forall i: nat, j: nat | i < j < |nodes| ensures place[i] < place[j] { PlacesGrow(nodes, s, i, j); }
    forall q: nat | q < |FuseLoops(nodes, s)| && q !in place
        ensures exists i :: AsksNext(nodes, FuseLoops(nodes, s), q, place, i) {
      var i := AddedForLoop(nodes, s, q, place);
    }
  }

  lemma {:induction false} PlacesGrow(nodes: seq<Node>, s: nat, i: nat, j: nat)
    requires hide *; i < j < |nodes|
    ensures Place(nodes, s, i) < Place(nodes, s, j)
    decreases j - i
  {
    hide FuseLoops, Stands, Place, P.Pos;
    StandsThere(nodes, s, i);
    StandsThere(nodes, s, j);
    if i + 1 < j {
      PlacesGrow(nodes, s, i + 1, j);
      StandsThere(nodes, s, i + 1);
    }
  }
}
