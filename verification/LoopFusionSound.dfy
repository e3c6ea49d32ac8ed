/** Loop fusion keeps a body fit for scheduling: the hoisted requests and the loops that pick from them run
    in waves as they do in program order. */
module LoopFusionSound {
  import opened Wrappers
  import opened Ast
  import opened Frames
  import opened Ir
  import opened Quiet
  import opened FetchFrames
  import opened Dependencies
  import opened Readiness
  import opened FreshNames
  import opened Fusion
  import opened FusionMeaning
  import opened LoopFusion
  import opened LoopFusionBody
  import opened LoopFusionRun
  import opened LoopFusionPass

  /** What moving requests out of a loop takes for granted about the body around it: the collection and the
      keys are read by their recorded names, the collection is nothing that the loop writes, and the
      collection prefix, which is not recorded, reads nothing that this body binds. */
  ghost predicate LoopOpen(b: Body, fe: ForEachIr) {
    hide Vars, Uses, Groups;
    && LoopIterOpen(b, fe)
    && forall j: nat | j < |fe.body.nodes| ::
         && Uses(fe.body, j) * Binds(b.nodes) <= fe.body.nodes[j].inputs
         && (Hoistable(fe, fe.body.nodes[j]) ==> KeyRecorded(b, fe.body.nodes[j]))
  }

  ghost predicate LoopIterOpen(b: Body, fe: ForEachIr) {
    Vars(fe.iter, true) !! BodyWrites(fe.body) + {fe.loopVar}
        && Vars(fe.iter, true) * Binds(b.nodes) <= Vars(fe.iter, false)
  }

  ghost predicate KeyRecorded(b: Body, n: Node)
    requires Batchable(n) && n.kind.f.path[|n.kind.f.path| - 1].Param?
  {
    hide *;
    Vars(KeyExpr(n), true) * Binds(b.nodes) <= Vars(KeyExpr(n), false)
        && PathVars(Prefix(n.kind.f.path), true) !! Binds(b.nodes)
  }

  ghost predicate LoopsFit(b: Body, s: nat) {
    hide Vars, Uses, Groups;
    && Sound(b) && LoopsReady(b, s)
    && forall i: nat | i < |b.nodes| && FusesLoop(b.nodes[i]) :: LoopOpen(b, b.nodes[i].kind.fe)
  }

  // ---------- the loop body ----------

  /** Node `j` of the loop body after hoisting. */
  function Inner(fe: ForEachIr, s: nat, j: nat): Node
    requires j < |fe.body.nodes|
  {
    hide Vars;
    HoistedLoop(fe, s).body.nodes[j]
  }

  lemma InnerIs(fe: ForEachIr, s: nat, j: nat)
    requires hide *; j < |fe.body.nodes|
    ensures Inner(fe, s, j).(deps := {}) == InLoop(fe, j, s).(deps := {})
  {
    hide Hoistable, LoopScatterNode, DepsOf;
  }

  lemma InnerKept(fe: ForEachIr, s: nat, j: nat)
    requires hide *; j < |fe.body.nodes| && !Hoistable(fe, fe.body.nodes[j])
    ensures Inner(fe, s, j).(deps := {}) == fe.body.nodes[j].(deps := {})
  {
    hide Vars, KeyOf, Groups, DepsOf;
    InnerIs(fe, s, j);
    hide Hoistable, HoistedLoop;
  }

  /** What stands in the loop for a hoisted fetch. */
  ghost predicate Picks(fe: ForEachIr, n: Node, name: string, m: Node)
    requires Batchable(n) && n.kind.f.path[|n.kind.f.path| - 1].Param?
  {
    hide *;
    && m.id == n.id && m.binding == n.binding && m.kind.ScatterN? && !m.effect && QuietKind(m.kind)
    && KindVars(m.kind, true) == {name} + Vars(KeyExpr(n), true) && m.inputs == {name} + Vars(KeyExpr(n), false)
  }

  lemma InnerPicks(fe: ForEachIr, s: nat, j: nat)
    requires hide Vars, Groups; LoopFit(fe) && j < |fe.body.nodes| && Hoistable(fe, fe.body.nodes[j])
    ensures Picks(fe, fe.body.nodes[j], LoopBatchName(s + PlanCount(fe, j)), Inner(fe, s, j))
  {
    hide KeyOf, Groups, DepsOf, Inner;
    InnerIs(fe, s, j);
    hide HoistedLoop;
    var n := fe.body.nodes[j];
    assert HoistPlain(fe, n) && Batchable(n);
    QuietId(n);
    KeyIsUsed(n);
    hide Hoistable, HoistPlain, LoopFit, Batchable, Vars, Quiet.Quiet, QuietFetch;
  }

  /** What a hoisted fetch reads. */
  lemma KeyReads(fe: ForEachIr, j: nat)
    requires hide Vars, Uses, KeyOf, Groups; LoopFit(fe) && j < |fe.body.nodes| && Hoistable(fe, fe.body.nodes[j])
    ensures var n := fe.body.nodes[j];
            && Vars(KeyExpr(n), true) <= Uses(fe.body, j) && PathVars(Prefix(n.kind.f.path), true) <= Uses(fe.body, j)
            && Vars(KeyExpr(n), true) - {fe.loopVar} !! BodyWrites(fe.body) && fe.loopVar !in BodyWrites(fe.body)
            && PathVars(Prefix(n.kind.f.path), true) !! BodyWrites(fe.body) + {fe.loopVar}
  {
    hide Vars, KeyOf, Groups, DepsOf;
    var n := fe.body.nodes[j];
    assert HoistPlain(fe, n);
    KeyIsUsed(n);
    PrefixIsUsed(n);
  }

  lemma BindsWritten(nodes: seq<Node>)
    ensures Binds(nodes) <= NodesWrites(nodes)
  {
    forall x | x in Binds(nodes) ensures x in NodesWrites(nodes) {
      var n :| n in nodes && n.binding.Some? && n.binding.value == x;
      var i: nat :| i < |nodes| && nodes[i] == n;
      NodeWritesIn(nodes, i);
    }
  }

  lemma {:induction false} SameWrites(a: seq<Node>, b: seq<Node>)
    requires hide *; |a| == |b| &&
             forall i: nat | i < |a| ::
               a[i].binding == b[i].binding
               && Leaks(a[i].kind) == Leaks(b[i].kind)
    ensures NodesWrites(a) == NodesWrites(b)
  {
    hide Leaks;
    if a != [] { SameWrites(a[1..], b[1..]); }
  }

  /** The loop writes what it wrote. */
  lemma HoistedWrites(fe: ForEachIr, s: nat)
    requires LoopFit(fe)
    ensures BodyWrites(HoistedLoop(fe, s).body) == BodyWrites(fe.body)
            && Binds(HoistedLoop(fe, s).body.nodes) == Binds(fe.body.nodes)
  {
    hide Vars, KeyOf, Groups, DepsOf, LoopFit, Hoistable;
    var b := HoistedLoop(fe, s).body;
    forall j: nat | j < |b.nodes|
        ensures b.nodes[j].binding == fe.body.nodes[j].binding
        && Leaks(b.nodes[j].kind) == Leaks(fe.body.nodes[j].kind) {
      InnerBinds(fe, s, j);
    }
    hide HoistedLoop, Leaks;
    SameWrites(b.nodes, fe.body.nodes);
    SameBound(b.nodes, fe.body.nodes);
  }

  lemma InnerBinds(fe: ForEachIr, s: nat, j: nat)
    requires hide *; j < |fe.body.nodes|
    ensures Inner(fe, s, j).binding == fe.body.nodes[j].binding
            && Leaks(Inner(fe, s, j).kind) == Leaks(fe.body.nodes[j].kind)
  {
    hide Vars, KeyOf, Groups, DepsOf;
    InnerIs(fe, s, j);
    if Hoistable(fe, fe.body.nodes[j]) { assert Batchable(fe.body.nodes[j]); }
    hide Hoistable, HoistedLoop;
  }

  lemma SameBound(a: seq<Node>, b: seq<Node>)
    requires |a| == |b| && forall i: nat | i < |a| :: a[i].binding == b[i].binding
    ensures Binds(a) == Binds(b)
  {
    forall x | x in Binds(a) ensures x in Binds(b) {
      var i: nat :| i < |a| && a[i].binding == Some(x);
      assert b[i] in b;
    }
    forall x | x in Binds(b) ensures x in Binds(a) {
      var i: nat :| i < |b| && b[i].binding == Some(x);
      assert a[i] in a;
    }
  }

  /** What a node of the hoisted body reads: as before, or its batch and the key. */
  lemma InnerReads(fe: ForEachIr, s: nat, j: nat, x: string)
    requires hide Vars, Uses, KeyOf, Groups; LoopFit(fe) && j < |fe.body.nodes| && x in Uses(HoistedLoop(fe, s).body, j)
    ensures x in Uses(fe.body, j) || (x in LoopNames(fe, s) && x in Inner(fe, s, j).inputs)
    ensures Hoistable(fe, fe.body.nodes[j]) && x !in LoopNames(fe, s) ==>
              x in Vars(KeyExpr(fe.body.nodes[j]), true) && x !in BodyWrites(fe.body)
  {
    hide Vars, KeyOf, Groups, DepsOf, Fusion.Batchable, FetchVars, PathVars;
    if Hoistable(fe, fe.body.nodes[j]) {
      InnerPicks(fe, s, j);
      KeyReads(fe, j);
    } else {
      InnerKept(fe, s, j);
    }
    hide Hoistable, HoistedLoop, LoopFit, Picks;
  }

  /** The names of its batches are strange to the loop. */
  ghost predicate Strange(fe: ForEachIr, s: nat) {
    BodyWrites(fe.body) !! LoopNames(fe, s) && fe.loopVar !in LoopNames(fe, s)
  }

  lemma InnerWrites(fe: ForEachIr, j: nat)
    requires hide *; j < |fe.body.nodes|
    ensures BindSet(fe.body.nodes[j]) + Leaks(fe.body.nodes[j].kind) <= BodyWrites(fe.body)
  {
    NodeWritesIn(fe.body.nodes, j);
  }

  ghost predicate Meets(b: Body, j: nat, n: Node) {
    && n.id == j && n.effect == IsEffect(n.kind) && (n.binding.Some? ==> MayBind(n.kind))
    && (!n.effect ==> QuietKind(n.kind)) && KindVars(n.kind, true) * Binds(b.nodes) <= n.inputs
  }

  lemma PickedMeets(b: Body, fe: ForEachIr, j: nat, n: Node, name: string, m: Node)
    requires hide Vars, KeyOf, Groups; Hoistable(fe, n) && Picks(fe, n, name, m) && n.id == j && name !in Binds(b.nodes)
    requires Vars(KeyExpr(n), true) - {fe.loopVar} !! Binds(b.nodes)
    ensures Meets(b, j, m)
  {
    hide KindVars, BodyVars, KeyOf, Groups, DepsOf, HoistedLoop;
    assert fe.loopVar in Vars(KeyExpr(n), false);
    hide Hoistable, QuietKind, Vars;
  }

  lemma PickMeets(fe: ForEachIr, s: nat, j: nat)
    requires hide *; LoopFit(fe) && Strange(fe, s) && j < |fe.body.nodes| && Hoistable(fe, fe.body.nodes[j])
             && fe.body.nodes[j].id == j
    ensures Meets(fe.body, j, Inner(fe, s, j))
  {
    hide Vars, KindVars, BodyVars, Uses, KeyOf, Groups, DepsOf, Hoistable, HoistedLoop, LoopFit, LoopNames, Picks,
      Meets, Inner;
    InnerPicks(fe, s, j);
    KeyReads(fe, j);
    NamedInLoop(fe, s, j);
    BindsWritten(fe.body.nodes);
    WritesAre(fe.body);
    hide BodyWrites;
    PickedMeets(fe.body, fe, j, fe.body.nodes[j], LoopBatchName(s + PlanCount(fe, j)), Inner(fe, s, j));
  }

  lemma WritesAre(b: Body)
    ensures BodyWrites(b) == NodesWrites(b.nodes)
  {
  }

  lemma InnerMeets(fe: ForEachIr, s: nat, j: nat)
    requires hide *; LoopFit(fe) && Strange(fe, s) && Sound(fe.body) && j < |fe.body.nodes|
    ensures Meets(HoistedLoop(fe, s).body, j, Inner(fe, s, j))
  {
    hide Vars, KeyOf, Groups, DepsOf;
    HoistedWrites(fe, s);
    NodeMeets(fe.body, j);
    if Hoistable(fe, fe.body.nodes[j]) { PickMeets(fe, s, j); } else { InnerKept(fe, s, j); }
    hide Sound, LoopFit, Hoistable, HoistedLoop, Strange, BodyWrites;
  }

  lemma NodeMeets(b: Body, i: nat)
    requires hide *; Sound(b) && i < |b.nodes|
    ensures var n := b.nodes[i];
            && n.id == i && n.effect == IsEffect(n.kind) && (n.binding.Some? ==> MayBind(n.kind))
            && (!n.effect ==> QuietKind(n.kind)) && Uses(b, i) * Binds(b.nodes) <= n.inputs
            && n.deps == DepsOf(b.nodes, i)
  {
    hide Vars, KindVars, BodyVars, Uses, KeyOf, Groups, DepsOf, HoistedLoop;
  }

  lemma InnerRecorded(fe: ForEachIr, s: nat)
    requires LoopFit(fe) && Strange(fe, s) && Sound(fe.body)
    ensures Recorded(HoistedLoop(fe, s).body) && SilentNodesQuiet(HoistedLoop(fe, s).body)
  {
    hide LoopFit, Strange, Sound, KindVars, QuietKind, Hoistable, LoopScatterNode, InLoop, Binds, IsEffect, DepsOf;
    var b := HoistedLoop(fe, s).body;
    forall j: nat | j < |b.nodes|
      ensures var n := b.nodes[j];
              && n.id == j && n.effect == IsEffect(n.kind) && (n.binding.Some? ==> MayBind(n.kind))
              && (!n.effect ==> QuietKind(n.kind)) && Uses(b, j) * Binds(b.nodes) <= n.inputs
                 && n.deps == DepsOf(b.nodes, j)
    {
      InnerMeets(fe, s, j);
      WithDepsFixed(LoopBodyNodes(fe, s), j);
    }
  }

  lemma InnerSingle(fe: ForEachIr, s: nat)
    requires LoopFit(fe) && Strange(fe, s) && Sound(fe.body)
    ensures SingleAssignment(HoistedLoop(fe, s).body) && ScopedLeaks(HoistedLoop(fe, s).body)
  {
    hide Vars, KindVars, BodyVars, KeyOf, Groups, LoopFit, Hoistable, InLoop, DepsOf;
    var b, was := HoistedLoop(fe, s).body, fe.body;
    forall j: nat | j < |b.nodes|
      ensures BindSet(b.nodes[j]) == BindSet(was.nodes[j]) && Leaks(b.nodes[j].kind) == Leaks(was.nodes[j].kind)
      ensures BindSet(was.nodes[j]) + Leaks(was.nodes[j].kind) !! LoopNames(fe, s)
    {
      InnerBinds(fe, s, j);
      InnerWrites(fe, j);
    }
    forall j: nat, x | j < |b.nodes| && x in Uses(b, j)
        ensures x in Uses(was, j) || x in LoopNames(fe, s) { InnerReads(fe, s, j, x); }
    BodyShapes(fe, s);
    hide HoistedLoop, Uses, BindSet, Leaks, LoopNames, Strange, Recorded;
  }

  lemma BodyShapes(fe: ForEachIr, s: nat)
    ensures |HoistedLoop(fe, s).body.nodes| == |fe.body.nodes|
  {
    hide Vars, KeyOf, Groups, DepsOf;
  }

  /** The body of the loop is as fit as it was. */
  lemma HoistedIsSound(fe: ForEachIr, s: nat)
    requires LoopFit(fe) && Strange(fe, s) && Sound(fe.body)
    ensures Sound(HoistedLoop(fe, s).body)
  {
    hide Vars, KindVars, BodyVars, Uses, KeyOf, Groups, DepsOf;
    InnerRecorded(fe, s);
    InnerSingle(fe, s);
    hide HoistedLoop, Recorded, SingleAssignment, ScopedLeaks, SilentNodesQuiet, LoopFit;
  }

  lemma {:induction false} InNodesVars(nodes: seq<Node>, x: string) returns (j: nat)
    requires hide *; x in NodesVars(nodes, true)
    ensures j < |nodes| && x in KindVars(nodes[j].kind, true)
  {
    hide KindVars;
    if x in KindVars(nodes[0].kind, true) {
      j := 0;
    } else {
      var i := InNodesVars(nodes[1..], x);
      j := i + 1;
    }
  }

  lemma {:induction false} NodesVarsHas(nodes: seq<Node>, j: nat)
    requires hide *; j < |nodes|
    ensures KindVars(nodes[j].kind, true) <= NodesVars(nodes, true)
  {
    hide KindVars;
    if j > 0 { NodesVarsHas(nodes[1..], j - 1); }
  }

  /** An iteration still reads nothing that an earlier one wrote. */
  lemma HoistedCarriesNothing(fe: ForEachIr, s: nat)
    requires LoopFit(fe) && Strange(fe, s) && BodyWrites(fe.body) !! BodyVars(fe.body, true)
    ensures BodyWrites(HoistedLoop(fe, s).body) !! BodyVars(HoistedLoop(fe, s).body, true)
  {
    hide Vars, KeyOf, Groups, DepsOf;
    var b := HoistedLoop(fe, s).body;
    HoistedWrites(fe, s);
    forall x | x in BodyVars(b, true) ensures x !in BodyWrites(fe.body) {
      var j := InNodesVars(b.nodes, x);
      InnerReads(fe, s, j, x);
      NodesVarsHas(fe.body.nodes, j);
    }
  }

  // ---------- where the rewritten nodes come from ----------

  /** Node `i` itself, or the batch for node `j` of the body of loop `i`. */
  datatype Source = Kept(i: nat) | BatchFor(i: nat, j: nat)

  ghost predicate Genuine(nodes: seq<Node>, o: Source) {
    hide Vars, KeyOf, Groups;
    && o.i < |nodes|
    && (o.BatchFor? ==> FusesLoop(nodes[o.i]) && o.j < |nodes[o.i].kind.fe.body.nodes|
                        && Hoistable(nodes[o.i].kind.fe, nodes[o.i].kind.fe.body.nodes[o.j]))
  }

  /** In written order, the batches of a loop before it. */
  predicate Before(o: Source, u: Source) {
    o.i < u.i || (o.i == u.i && o.BatchFor? && (u.Kept? || o.j < u.j))
  }

  function Made(nodes: seq<Node>, s: nat, o: Source): Node
    requires Genuine(nodes, o)
  {
    hide Vars, KeyOf, Groups;
    match o
    case Kept(i) => if FusesLoop(nodes[i]) then LoopNode(nodes[i], NextName(nodes, i, s), 0) else nodes[i]
    case BatchFor(i, j) =>
      var fe := nodes[i].kind.fe;
      LoopBatchNode(fe, fe.body.nodes[j], NextName(nodes, i, s) + PlanCount(fe, j), 0)
  }

  /** The batches of the first `k` nodes of the body of loop `i`. */
  function BatchSources(fe: ForEachIr, i: nat, k: nat): seq<Source>
    requires k <= |fe.body.nodes|
  {
    hide *;
    if k == 0 then []
    else BatchSources(fe, i, k - 1) + if Hoistable(fe, fe.body.nodes[k - 1]) then [BatchFor(i, k - 1)] else []
  }

  function SourcesOf(n: Node, i: nat): seq<Source> {
    hide Vars, Groups;
    (if FusesLoop(n) then BatchSources(n.kind.fe, i, |n.kind.fe.body.nodes|) else []) + [Kept(i)]
  }

  function Sources(nodes: seq<Node>, k: nat): seq<Source>
    requires k <= |nodes|
  {
    hide *;
    if k == 0 then [] else Sources(nodes, k - 1) + SourcesOf(nodes[k - 1], k - 1)
  }

  /** `n` is what `o` becomes, at position `at`. */
  ghost predicate Shows(n: Node, nodes: seq<Node>, s: nat, o: Source, at: nat) {
    hide *;
    Genuine(nodes, o)
    && var m := Made(nodes, s, o);
       n.id == at && n.kind == m.kind && n.binding == m.binding && n.inputs == m.inputs && n.effect == m.effect
  }

  ghost predicate Sorted(os: seq<Source>) {
    forall p: nat, q: nat | p < q < |os| :: Before(os[p], os[q])
  }

  lemma {:induction false} BatchSourcesFit(nodes: seq<Node>, i: nat, k: nat, s: nat, at: nat)
    requires hide Vars, KeyOf, Groups; i < |nodes| && FusesLoop(nodes[i]) && k <= |nodes[i].kind.fe.body.nodes|
    ensures var fe := nodes[i].kind.fe;
            var os, out := BatchSources(fe, i, k), LoopBatches(fe, k, NextName(nodes, i, s), at);
            && |os| == |out| && Sorted(os)
            &&
               (forall q: nat | q < |os| ::
                 os[q].BatchFor? && os[q].i == i && os[q].j < k
                 && Shows(out[q], nodes, s, os[q], at + q))
  {
    hide Vars, KeyOf, Groups, DepsOf, HoistedLoop, Hoistable, FusesLoop, LoopBatchFetch;
    if k > 0 { BatchSourcesFit(nodes, i, k - 1, s, at); }
  }

  lemma SourcesOfFit(nodes: seq<Node>, i: nat, s: nat, at: nat)
    requires hide *; i < |nodes|
    ensures var os, out := SourcesOf(nodes[i], i), LoopExpand(nodes[i], NextName(nodes, i, s), at);
            && |os| == |out| && Sorted(os)
            && (forall q: nat | q < |os| :: os[q].i == i && Shows(out[q], nodes, s, os[q], at + q))
  {
    hide Vars, KeyOf, Groups, DepsOf;
    if FusesLoop(nodes[i]) { BatchSourcesFit(nodes, i, |nodes[i].kind.fe.body.nodes|, s, at); }
    hide FusesLoop, LoopBatches, LoopBatchNode, Hoistable, HoistedLoop;
  }

  lemma {:induction false} SourcesFit(nodes: seq<Node>, k: nat, s: nat)
    requires hide *; k <= |nodes|
    ensures var os, out := Sources(nodes, k), LoopRebuild(nodes, k, s);
            && |os| == |out| && Sorted(os)
            && (forall q: nat | q < |os| :: os[q].i < k && Shows(out[q], nodes, s, os[q], q))
  {
    hide PlanCount, SourcesOf, LoopExpand, Shows;
    if k > 0 {
      SourcesFit(nodes, k - 1, s);
      SourcesOfFit(nodes, k - 1, s, |LoopRebuild(nodes, k - 1, s)|);
      hide NextName;
    }
  }

  /** The rewritten body laid out by its sources. */
  ghost predicate Spread(b: Body, s: nat, os: seq<Source>) {
    hide *;
    && Sorted(os) && |FuseLoops(b.nodes, s)| == |os|
    && forall q: nat | q < |os| :: Shows(FuseLoops(b.nodes, s)[q], b.nodes, s, os[q], q)
  }

  lemma FusedSpread(b: Body, s: nat)
    requires hide *; exists n :: n in b.nodes && FusesLoop(n)
    ensures Spread(b, s, Sources(b.nodes, |b.nodes|))
  {
    hide Vars, KeyOf, Groups, HoistedLoop;
    SourcesFit(b.nodes, |b.nodes|, s);
    hide Sources, LoopRebuild, FusesLoop, DepsOf, Made, Genuine;
  }

  // ---------- what the rewritten nodes read and bind ----------

  ghost function MadeUses(nodes: seq<Node>, s: nat, o: Source): set<string>
    requires Genuine(nodes, o)
  {
    hide *;
    KindVars(Made(nodes, s, o).kind, true)
  }

  /** What is known of a loop that is fused. */
  lemma LoopKnown(b: Body, s: nat, i: nat)
    requires hide *; LoopsFit(b, s) && i < |b.nodes| && FusesLoop(b.nodes[i])
    ensures b.nodes[i].kind.ForEachN?
    ensures var fe, from := b.nodes[i].kind.fe, NextName(b.nodes, i, s);
            && LoopFit(fe) && Strange(fe, from) && LoopNames(fe, from) <= AllNames(b.nodes, s) && LoopOpen(b, fe)
            && Leaks(b.nodes[i].kind) == {fe.loopVar} + BodyWrites(fe.body)
  {
    hide Vars, KindVars, BodyVars, Uses, KeyOf, Groups, DepsOf, HoistedLoop, Hoistable, LoopNames, AllNames,
      LoopFit, LoopOpen, Sound;
    FusedLoopFits(b, i, s);
  }

  lemma NodeAvoids(b: Body, s: nat, i: nat)
    requires hide *; LoopsFit(b, s) && i < |b.nodes|
    ensures Uses(b, i) !! AllNames(b.nodes, s) && Writes(b.nodes[i]) !! AllNames(b.nodes, s)
  {
    hide Vars, KeyOf, Groups, DepsOf;
    AvoidsNode(b, i, AllNames(b.nodes, s));
    AvoidsUses(b.nodes[i].kind, AllNames(b.nodes, s));
  }

  /** A name that the loop body reads and does not write is read by the loop. */
  lemma ReadByLoop(b: Body, i: nat, j: nat, x: string)
    requires hide *; i < |b.nodes| && b.nodes[i].kind.ForEachN? && j < |b.nodes[i].kind.fe.body.nodes|
    requires x in Uses(b.nodes[i].kind.fe.body, j) && x !in Binds(b.nodes[i].kind.fe.body.nodes)
             && x != b.nodes[i].kind.fe.loopVar
    ensures x in Uses(b, i)
  {
    hide Vars, KeyOf, Groups, DepsOf;
    var inner := b.nodes[i].kind.fe.body;
    NodesVarsHas(inner.nodes, j);
    assert x in BodyVars(inner, true);
  }

  /** A batch reads what its loop reads, by recorded names, and nothing that the loop writes. */
  lemma BatchReads(b: Body, s: nat, i: nat, j: nat, x: string)
    requires hide Vars, Uses, KeyOf, Groups;
             LoopsFit(b, s) && Genuine(b.nodes, BatchFor(i, j)) && x in MadeUses(b.nodes, s, BatchFor(i, j))
    ensures x in Uses(b, i) && (x in Binds(b.nodes) ==> x in Made(b.nodes, s, BatchFor(i, j)).inputs)
            && x !in Leaks(b.nodes[i].kind)
  {
    hide Vars, KeyOf, Groups, DepsOf;
    LoopKnown(b, s, i);
    hide LoopsFit, LoopFit, LoopOpen, Hoistable, Strange, Uses, NextName, LoopBatchFetch, Leaks;
    BatchReadsAt(b, i, j, x);
  }

  lemma BatchReadsAt(b: Body, i: nat, j: nat, x: string)
    requires hide Vars, Uses, KeyOf, Groups;
             i < |b.nodes| && b.nodes[i].kind.ForEachN? && j < |b.nodes[i].kind.fe.body.nodes|
    requires LoopFit(b.nodes[i].kind.fe) && LoopOpen(b, b.nodes[i].kind.fe)
    requires Hoistable(b.nodes[i].kind.fe, b.nodes[i].kind.fe.body.nodes[j])
    requires x in FetchVars(LoopBatchFetch(b.nodes[i].kind.fe, b.nodes[i].kind.fe.body.nodes[j]), true)
    ensures var fe, n := b.nodes[i].kind.fe, b.nodes[i].kind.fe.body.nodes[j];
            && x in Uses(b, i) && x !in BodyWrites(fe.body) + {fe.loopVar}
            && (x in Binds(b.nodes) ==> x in Vars(fe.iter, false) + (Vars(KeyExpr(n), false) - {fe.loopVar}))
  {
    hide KindVars, BodyVars, Uses, KeyOf, Groups, DepsOf, HoistedLoop;
    var fe := b.nodes[i].kind.fe;
    var n := fe.body.nodes[j];
    assert KeyRecorded(b, n);
    assert LoopIterOpen(b, fe);
    BatchVarsAre(fe, n);
    KeyReads(fe, j);
    hide LoopFit, LoopOpen, Hoistable, Vars, PathVars, LoopBatchFetch, FetchVars;
    BindsWritten(fe.body.nodes);
    WritesAre(fe.body);
    hide BodyWrites, Binds;
    if x in Vars(fe.iter, true) { IterIsRead(b, i, x); } else { ReadByLoop(b, i, j, x); }
  }

  lemma IterIsRead(b: Body, i: nat, x: string)
    requires hide *; i < |b.nodes| && b.nodes[i].kind.ForEachN? && x in Vars(b.nodes[i].kind.fe.iter, true)
    ensures x in Uses(b, i)
  {
    hide Vars, KeyOf, Groups, DepsOf;
  }

  lemma BatchVarsAre(fe: ForEachIr, n: Node)
    requires hide Vars, KeyOf, Groups; Hoistable(fe, n)
    ensures FetchVars(LoopBatchFetch(fe, n), true) ==
            PathVars(Prefix(n.kind.f.path), true) + Vars(fe.iter, true) + (Vars(KeyExpr(n), true) - {fe.loopVar})
  {
    hide KeyOf, Groups, DepsOf, HoistedLoop, Hoistable, Vars, PathVars;
  }

  /** A fused loop reads what it read, by recorded names, and its own batches. */
  lemma LoopReads(b: Body, s: nat, i: nat, x: string)
    requires hide Vars, Uses, KeyOf, Groups;
             LoopsFit(b, s) && i < |b.nodes| && FusesLoop(b.nodes[i]) && x in MadeUses(b.nodes, s, Kept(i))
    ensures b.nodes[i].kind.ForEachN?
    ensures x in LoopNames(b.nodes[i].kind.fe, NextName(b.nodes, i, s)) || x in Uses(b, i)
    ensures x in Binds(b.nodes) || x in LoopNames(b.nodes[i].kind.fe, NextName(b.nodes, i, s))
            ==> x in Made(b.nodes, s, Kept(i)).inputs
  {
    hide Vars, KindVars, BodyVars, KeyOf, Groups, DepsOf;
    LoopKnown(b, s, i);
    NodeAvoids(b, s, i);
    var fe, from := b.nodes[i].kind.fe, NextName(b.nodes, i, s);
    hide LoopsFit, Hoistable, HoistedLoop, NextName, LoopFit, LoopOpen, Strange, LoopNames, AllNames, Leaks, Uses;
    LoopUsesAre(fe, from, x);
    if x in Uses(b, i) { assert x !in LoopNames(fe, from); }
    LoopReadsAt(b, i, from, x);
    HoistedIter(fe, from);
  }

  lemma LoopUsesAre(fe: ForEachIr, s: nat, x: string)
    ensures x in KindVars(ForEachN(HoistedLoop(fe, s)), true) ==>
              x in Vars(fe.iter, true) || (x in BodyVars(HoistedLoop(fe, s).body, true) && x != fe.loopVar)
  {
    hide KeyOf, Groups, DepsOf, Vars, BodyVars, LoopBodyNodes;
  }

  /** The names recorded for a fused loop. */
  function LoopInputs(fe: ForEachIr, s: nat): set<string> {
    var h := HoistedLoop(fe, s);
    Vars(fe.iter, false) + InputsOf(h.body.nodes) - Binds(h.body.nodes) - {fe.loopVar}
  }

  lemma LoopReadsAt(b: Body, i: nat, s: nat, x: string)
    requires hide *; i < |b.nodes| && b.nodes[i].kind.ForEachN? && LoopFit(b.nodes[i].kind.fe)
             && LoopOpen(b, b.nodes[i].kind.fe)
    requires Strange(b.nodes[i].kind.fe, s)
    requires var fe := b.nodes[i].kind.fe;
             x in Vars(fe.iter, true) || (x in BodyVars(HoistedLoop(fe, s).body, true) && x != fe.loopVar)
    requires x in Uses(b, i) ==> x !in LoopNames(b.nodes[i].kind.fe, s)
    ensures x in LoopNames(b.nodes[i].kind.fe, s) || x in Uses(b, i)
    ensures x in Binds(b.nodes) || x in LoopNames(b.nodes[i].kind.fe, s) ==> x in LoopInputs(b.nodes[i].kind.fe, s)
  {
    hide Vars, KeyOf, Groups, DepsOf;
    var fe := b.nodes[i].kind.fe;
    HoistedWrites(fe, s);
    BindsWritten(fe.body.nodes);
    WritesAre(fe.body);
    if x in Vars(fe.iter, true) {
      IterIsRead(b, i, x);
      assert LoopIterOpen(b, fe);
      hide HoistedLoop, BodyWrites, LoopFit, LoopOpen, Strange, LoopNames;
    } else {
      InBodyVars(HoistedLoop(fe, s).body, x);
      var j := InNodesVars(HoistedLoop(fe, s).body.nodes, x);
      BodyShapes(fe, s);
      BodyReads(b, i, j, s, x);
    }
  }

  lemma InBodyVars(b: Body, x: string)
    requires x in BodyVars(b, true)
    ensures x in NodesVars(b.nodes, true) && x !in Binds(b.nodes)
  {
    hide Vars, KeyOf, Groups, DepsOf;
  }

  lemma BodyReads(b: Body, i: nat, j: nat, s: nat, x: string)
    requires hide Vars, Uses, Groups; i < |b.nodes| && b.nodes[i].kind.ForEachN? && LoopFit(b.nodes[i].kind.fe)
             && LoopOpen(b, b.nodes[i].kind.fe)
    requires Strange(b.nodes[i].kind.fe, s) && j < |b.nodes[i].kind.fe.body.nodes|
    requires var fe := b.nodes[i].kind.fe;
             x in Uses(HoistedLoop(fe, s).body, j) && x !in Binds(fe.body.nodes) && x != fe.loopVar
    requires x in Uses(b, i) ==> x !in LoopNames(b.nodes[i].kind.fe, s)
    ensures x in LoopNames(b.nodes[i].kind.fe, s) || x in Uses(b, i)
    ensures x in Binds(b.nodes) || x in LoopNames(b.nodes[i].kind.fe, s) ==> x in LoopInputs(b.nodes[i].kind.fe, s)
  {
    hide Vars, KindVars, BodyVars, KeyOf, Groups, DepsOf, LoopFit, LoopOpen, Strange, LoopNames, Uses;
    var fe := b.nodes[i].kind.fe;
    InnerReads(fe, s, j, x);
    if x in Uses(fe.body, j) { ReadByLoop(b, i, j, x); }
    if x in Binds(b.nodes) || x in LoopNames(fe, s) {
      InnerRecords(b, fe, s, j, x);
      HoistedWrites(fe, s);
      BodyShapes(fe, s);
      hide HoistedLoop;
      assert HoistedLoop(fe, s).body.nodes[j] in HoistedLoop(fe, s).body.nodes;
    }
    hide LoopFit, LoopOpen, Strange, LoopNames, Uses, BodyWrites, Hoistable;
  }

  lemma InnerRecords(b: Body, fe: ForEachIr, s: nat, j: nat, x: string)
    requires hide Vars, Uses, Groups; LoopFit(fe) && Strange(fe, s) && LoopOpen(b, fe) && j < |fe.body.nodes|
             && x in Uses(HoistedLoop(fe, s).body, j)
    requires x in Binds(b.nodes) || x in LoopNames(fe, s)
    requires x in Uses(fe.body, j) ==> x !in LoopNames(fe, s)
    ensures x in Inner(fe, s, j).inputs
  {
    hide KindVars, BodyVars, KeyOf, Groups, DepsOf, Uses, Strange, FetchVars, Vars, BodyWrites, LoopFit, LoopNames,
      LoopIterOpen, HoistedLoop, Fusion.Batchable;
    InnerReads(fe, s, j, x);
    if x in Uses(fe.body, j) {
      if Hoistable(fe, fe.body.nodes[j]) {
        assert KeyRecorded(b, fe.body.nodes[j]);
        InnerPicks(fe, s, j);
      } else {
        InnerKept(fe, s, j);
      }
    }
    hide Hoistable, HoistedLoop, LoopFit, LoopNames, Strange, Uses;
  }

  // ---------- names of batches ----------

  /** The number in the name of a batch. */
  function NumberOf(nodes: seq<Node>, s: nat, o: Source): nat
    requires Genuine(nodes, o) && o.BatchFor?
  {
    hide Vars, KeyOf, Groups;
    NextName(nodes, o.i, s) + PlanCount(nodes[o.i].kind.fe, o.j)
  }

  /** Numbers go up in written order, and those of the loops up to `i` are below those of the loops after. */
  lemma NumbersGrow(nodes: seq<Node>, s: nat, o: Source, u: Source)
    requires hide *; Genuine(nodes, o) && Genuine(nodes, u) && o.BatchFor? && u.BatchFor? && Before(o, u)
    ensures NumberOf(nodes, s, o) < NumberOf(nodes, s, u)
  {
    hide Hoistable;
    var fe := nodes[o.i].kind.fe;
    if o.i == u.i {
      PlanCountGrows(fe, o.j, u.j);
    } else {
      PlanCountGrows(fe, o.j, |fe.body.nodes|);
      NextNameGrows(nodes, o.i + 1, u.i, s);
    }
  }

  lemma NameIsGiven(nodes: seq<Node>, s: nat, o: Source)
    requires hide Vars, KeyOf, Groups; Genuine(nodes, o) && o.BatchFor?
    ensures LoopBatchName(NumberOf(nodes, s, o)) in AllNames(nodes, s)
    ensures LoopBatchName(NumberOf(nodes, s, o)) in LoopNames(nodes[o.i].kind.fe, NextName(nodes, o.i, s))
  {
    hide Vars, KeyOf, Groups, DepsOf, HoistedLoop;
    NamesOfLoop(nodes, o.i, s);
    hide Hoistable, AllNames, FusesLoop;
  }

  /** Two batches bind different names. */
  lemma NamesApart(nodes: seq<Node>, s: nat, o: Source, u: Source)
    requires hide *; Genuine(nodes, o) && Genuine(nodes, u) && o.BatchFor? && u.BatchFor? && Before(o, u)
    ensures LoopBatchName(NumberOf(nodes, s, o)) != LoopBatchName(NumberOf(nodes, s, u))
  {
    hide *;
    NumbersGrow(nodes, s, o, u);
    if LoopBatchName(NumberOf(nodes, s, o)) == LoopBatchName(NumberOf(nodes, s, u)) {
      LoopNamesDistinct(NumberOf(nodes, s, o), NumberOf(nodes, s, u));
    }
  }

  /** The names that loop `i` picks from are not those of batches after it. */
  lemma NotALaterName(nodes: seq<Node>, s: nat, i: nat, u: Source, x: string)
    requires hide Vars, KeyOf, Groups;
             i < |nodes| && FusesLoop(nodes[i]) && x in LoopNames(nodes[i].kind.fe, NextName(nodes, i, s))
    requires Genuine(nodes, u) && u.BatchFor? && i < u.i
    ensures x != LoopBatchName(NumberOf(nodes, s, u))
  {
    hide PlanCount, Hoistable, LoopBatchName;
    var fe := nodes[i].kind.fe;
    var j: nat :| j < |fe.body.nodes| && Hoistable(fe, fe.body.nodes[j])
        && x == LoopBatchName(NextName(nodes, i, s) + PlanCount(fe, j));
    NamesApart(nodes, s, BatchFor(i, j), u);
  }

  /** Who binds `x` in the rewritten body. */
  lemma BoundBy(b: Body, s: nat, o: Source, x: string)
    requires hide Vars, Uses, KeyOf, Groups; LoopsFit(b, s) && Genuine(b.nodes, o) && x in BindSet(Made(b.nodes, s, o))
    ensures o.Kept? ==> x in BindSet(b.nodes[o.i]) && x in Binds(b.nodes) && x !in AllNames(b.nodes, s)
    ensures o.BatchFor? ==> x == LoopBatchName(NumberOf(b.nodes, s, o)) && x in AllNames(b.nodes, s)
  {
    hide Vars, KindVars, BodyVars, Uses, KeyOf, Groups, DepsOf, HoistedLoop;
    MadeBinding(b.nodes, s, o);
    hide Made;
    if o.Kept? {
      NodeAvoids(b, s, o.i);
      hide LoopsFit, AllNames, Leaks;
      assert b.nodes[o.i] in b.nodes;
    } else {
      NameIsGiven(b.nodes, s, o);
      hide LoopsFit, AllNames;
    }
  }

  lemma MadeBinding(nodes: seq<Node>, s: nat, o: Source)
    requires hide Vars, KeyOf, Groups; Genuine(nodes, o)
    ensures Made(nodes, s, o).binding
            == if o.Kept? then nodes[o.i].binding else Some(LoopBatchName(NumberOf(nodes, s, o)))
  {
    hide Vars, KeyOf, Groups, DepsOf, Hoistable, LoopBatchName, HoistedLoop, LoopBatchFetch;
  }

  /** What the node of a source reads, apart from the names of its own batches, some original node reads. */
  lemma ReadsOf(b: Body, s: nat, o: Source, x: string)
    requires hide Vars, Uses, KeyOf, Groups; LoopsFit(b, s) && Genuine(b.nodes, o) && x in MadeUses(b.nodes, s, o)
    ensures x in Uses(b, o.i)
            || (o.Kept? && FusesLoop(b.nodes[o.i]) && x in LoopNames(b.nodes[o.i].kind.fe, NextName(b.nodes, o.i, s)))
    ensures o.BatchFor? ==> x !in Leaks(b.nodes[o.i].kind)
    ensures x in Binds(b.nodes)
            || (o.Kept? && FusesLoop(b.nodes[o.i])
            && x in LoopNames(b.nodes[o.i].kind.fe, NextName(b.nodes, o.i, s))) ==>
              x in Made(b.nodes, s, o).inputs
  {
    hide Vars, KeyOf, Groups, DepsOf;
    if o.BatchFor? {
      BatchReads(b, s, o.i, o.j, x);
    } else if FusesLoop(b.nodes[o.i]) {
      LoopReads(b, s, o.i, x);
    } else {
      assert Sound(b);
      NodeMeets(b, o.i);
    }
    hide LoopsFit, Made, LoopNames, NextName, FusesLoop, Leaks;
  }

  // ---------- single assignment and leaks ----------

  lemma BoundOnce(b: Body, s: nat, o: Source, u: Source)
    requires hide *; LoopsFit(b, s) && Genuine(b.nodes, o) && Genuine(b.nodes, u) && Before(o, u)
    ensures BindSet(Made(b.nodes, s, o)) !! BindSet(Made(b.nodes, s, u))
  {
    hide Vars, KindVars, BodyVars, Uses, KeyOf, Groups, DepsOf, HoistedLoop, Genuine, Made, AllNames, NumberOf;
    forall x | x in BindSet(Made(b.nodes, s, o)) && x in BindSet(Made(b.nodes, s, u)) ensures false {
      BoundBy(b, s, o, x);
      BoundBy(b, s, u, x);
      if o.BatchFor? && u.BatchFor? {
        NamesApart(b.nodes, s, o, u);
      } else if o.Kept? && u.Kept? {
        GenuineInRange(b.nodes, o);
        GenuineInRange(b.nodes, u);
        SingleAt(b, s, o.i, u.i);
      }
    }
  }

  lemma GenuineInRange(nodes: seq<Node>, o: Source)
    requires Genuine(nodes, o)
    ensures o.i < |nodes|
  {
    hide Vars, KeyOf, Groups, DepsOf, HoistedLoop;
  }

  lemma SingleAt(b: Body, s: nat, i: nat, j: nat)
    requires hide *; LoopsFit(b, s) && i <= j < |b.nodes|
    ensures i < j ==> BindSet(b.nodes[i]) !! BindSet(b.nodes[j])
    ensures Uses(b, i) !! BindSet(b.nodes[j])
  {
    hide Vars, KindVars, BodyVars, Uses, KeyOf, Groups, DepsOf, HoistedLoop;
  }

  lemma LeaksApart(b: Body, s: nat, i: nat, j: nat)
    requires hide *; LoopsFit(b, s) && i < |b.nodes| && j < |b.nodes| && i != j
    ensures Leaks(b.nodes[i].kind) !! Uses(b, j) + BindSet(b.nodes[j])
  {
    hide Vars, KindVars, BodyVars, Uses, KeyOf, Groups, DepsOf, HoistedLoop;
  }

  /** Nothing is bound at or after a node that reads it. */
  lemma ReadsComeAfter(b: Body, s: nat, o: Source, u: Source)
    requires hide *; LoopsFit(b, s) && Genuine(b.nodes, o) && Genuine(b.nodes, u) && (o == u || Before(o, u))
    ensures MadeUses(b.nodes, s, o) !! BindSet(Made(b.nodes, s, u))
  {
    hide Vars, KindVars, BodyVars, Uses, KeyOf, Groups, DepsOf, HoistedLoop, Genuine, MadeUses, Made, AllNames,
      NumberOf, LoopNames, NextName, FusesLoop;
    GenuineInRange(b.nodes, o);
    GenuineInRange(b.nodes, u);
    forall x | x in MadeUses(b.nodes, s, o) && x in BindSet(Made(b.nodes, s, u)) ensures false {
      ReadsOf(b, s, o, x);
      BoundBy(b, s, u, x);
      NodeAvoids(b, s, o.i);
      SingleAt(b, s, o.i, u.i);
      if x !in Uses(b, o.i) { PickedEarlier(b, s, o.i, u, x); }
    }
  }

  /** The batches of a loop are bound before it, and by nothing else. */
  lemma PickedEarlier(b: Body, s: nat, i: nat, u: Source, x: string)
    requires hide Vars, Uses, KeyOf, Groups; LoopsFit(b, s) && i < |b.nodes| && FusesLoop(b.nodes[i])
             && x in LoopNames(b.nodes[i].kind.fe, NextName(b.nodes, i, s))
    requires Genuine(b.nodes, u) && (u == Kept(i) || Before(Kept(i), u))
    ensures x !in BindSet(Made(b.nodes, s, u))
  {
    hide Vars, KindVars, BodyVars, Uses, KeyOf, Groups, DepsOf, HoistedLoop, LoopsFit, LoopFit, Made;
    LoopKnown(b, s, i);
    if x in BindSet(Made(b.nodes, s, u)) {
      BoundBy(b, s, u, x);
      if u.BatchFor? { NotALaterName(b.nodes, s, i, u, x); }
    }
  }

  lemma MadeLeaks(b: Body, s: nat, o: Source)
    requires hide Vars, Uses, KeyOf, Groups; LoopsFit(b, s) && Genuine(b.nodes, o)
    ensures Leaks(Made(b.nodes, s, o).kind) == if o.Kept? then Leaks(b.nodes[o.i].kind) else {}
  {
    hide Vars, KindVars, BodyVars, Uses, KeyOf, Groups, DepsOf;
    if o.Kept? && FusesLoop(b.nodes[o.i]) {
      LoopKnown(b, s, o.i);
      HoistedWrites(b.nodes[o.i].kind.fe, NextName(b.nodes, o.i, s));
    }
    hide LoopsFit, LoopFit, HoistedLoop, LoopNames, NextName, BodyWrites, Hoistable;
    if o.Kept? && FusesLoop(b.nodes[o.i]) { HoistedLoopVar(b.nodes[o.i].kind.fe, NextName(b.nodes, o.i, s)); }
  }

  lemma HoistedLoopVar(fe: ForEachIr, s: nat)
    ensures HoistedLoop(fe, s).loopVar == fe.loopVar && HoistedLoop(fe, s).iter == fe.iter
  {
    hide Vars, KeyOf, Groups, DepsOf;
  }

  /** What leaks from one node is neither read nor bound by another. */
  lemma FusedLeaks(b: Body, s: nat, o: Source, u: Source)
    requires hide *; LoopsFit(b, s) && Genuine(b.nodes, o) && Genuine(b.nodes, u) && o != u
    ensures Leaks(Made(b.nodes, s, o).kind) !! MadeUses(b.nodes, s, u) + BindSet(Made(b.nodes, s, u))
  {
    hide *;
    GenuineInRange(b.nodes, o);
    GenuineInRange(b.nodes, u);
    MadeLeaks(b, s, o);
    LeaksAreWritten(b.nodes[o.i]);
    NodeAvoids(b, s, o.i);
    if o.i != u.i { LeaksApart(b, s, o.i, u.i); }
    forall x | x in Leaks(Made(b.nodes, s, o).kind)
        ensures x !in MadeUses(b.nodes, s, u) && x !in BindSet(Made(b.nodes, s, u)) {
      if x in MadeUses(b.nodes, s, u) {
        ReadsOf(b, s, u, x);
        if x !in Uses(b, u.i) { OwnNames(b, s, u.i, x); }
      }
      if x in BindSet(Made(b.nodes, s, u)) { BoundBy(b, s, u, x); }
    }
  }

  lemma LeaksAreWritten(n: Node)
    ensures Leaks(n.kind) <= Writes(n)
  {
  }

  lemma OwnNames(b: Body, s: nat, i: nat, x: string)
    requires hide Vars, Uses, Groups; LoopsFit(b, s) && i < |b.nodes| && FusesLoop(b.nodes[i])
             && x in LoopNames(b.nodes[i].kind.fe, NextName(b.nodes, i, s))
    ensures x in AllNames(b.nodes, s)
  {
    hide *;
    LoopKnown(b, s, i);
  }

  // ---------- the theorem ----------

  /** The body after the pass; only its schedule is still missing. */
  ghost function FusedBody(b: Body, s: nat): Body { Body(FuseLoops(b.nodes, s), []) }

  lemma SpreadAt(b: Body, s: nat, os: seq<Source>, p: nat, q: nat)
    requires hide Vars, Uses, KeyOf, Groups; Spread(b, s, os) && p <= q < |os|
    ensures Genuine(b.nodes, os[p]) && Genuine(b.nodes, os[q]) && |FuseLoops(b.nodes, s)| == |os|
    ensures (p < q ==> Before(os[p], os[q])) && (p == q ==> os[p] == os[q])
    ensures BindSet(FuseLoops(b.nodes, s)[p]) == BindSet(Made(b.nodes, s, os[p]))
            && BindSet(FuseLoops(b.nodes, s)[q]) == BindSet(Made(b.nodes, s, os[q]))
    ensures Uses(FusedBody(b, s), p) == MadeUses(b.nodes, s, os[p])
            && Uses(FusedBody(b, s), q) == MadeUses(b.nodes, s, os[q])
    ensures FuseLoops(b.nodes, s)[p].kind == Made(b.nodes, s, os[p]).kind
            && FuseLoops(b.nodes, s)[q].kind == Made(b.nodes, s, os[q]).kind
  {
    hide Vars, KeyOf, Groups, DepsOf, Genuine, FuseLoops, Made, Before;
    assert Shows(FuseLoops(b.nodes, s)[p], b.nodes, s, os[p], p)
        && Shows(FuseLoops(b.nodes, s)[q], b.nodes, s, os[q], q);
  }

  lemma FusedSingle(b: Body, s: nat, os: seq<Source>)
    requires LoopsFit(b, s) && Spread(b, s, os)
    ensures SingleAssignment(FusedBody(b, s)) && ScopedLeaks(FusedBody(b, s))
  {
    hide Vars, KindVars, BodyVars, KeyOf, Groups, DepsOf, HoistedLoop, LoopsFit, FuseLoops, Genuine, Made, BindSet,
      Before, Leaks;
    var f := FusedBody(b, s);
    assert |f.nodes| == |os|;
    forall p: nat, q: nat | p <= q < |f.nodes|
      ensures p < q ==> BindSet(f.nodes[p]) !! BindSet(f.nodes[q])
      ensures Uses(f, p) !! BindSet(f.nodes[q])
      ensures p < q
              ==> Leaks(f.nodes[p].kind) !! Uses(f, q) + BindSet(f.nodes[q])
                  && Leaks(f.nodes[q].kind) !! Uses(f, p) + BindSet(f.nodes[p])
    {
      SpreadAt(b, s, os, p, q);
      ReadsComeAfter(b, s, os[p], os[q]);
      if p < q {
        BoundOnce(b, s, os[p], os[q]);
        NotBeforeItself(os[p], os[q]);
        FusedLeaks(b, s, os[p], os[q]);
        FusedLeaks(b, s, os[q], os[p]);
      }
    }
    hide Spread, Uses;
  }

  lemma NotBeforeItself(o: Source, u: Source)
    requires Before(o, u)
    ensures o != u
  {
  }

  lemma BindsOfFused(b: Body, s: nat, os: seq<Source>, x: string)
    requires LoopsFit(b, s) && Spread(b, s, os) && x in Binds(FuseLoops(b.nodes, s))
    ensures x in Binds(b.nodes) || x in AllNames(b.nodes, s)
  {
    hide Vars, KindVars, BodyVars, Uses, KeyOf, Groups, DepsOf, HoistedLoop;
    var n :| n in FuseLoops(b.nodes, s) && n.binding.Some? && n.binding.value == x;
    var q: nat :| q < |FuseLoops(b.nodes, s)| && FuseLoops(b.nodes, s)[q] == n;
    SpreadAt(b, s, os, q, q);
    hide LoopsFit, FuseLoops, Made;
    BoundBy(b, s, os[q], x);
  }

  lemma FusedRecords(b: Body, s: nat, os: seq<Source>, q: nat, x: string)
    requires hide Vars, Uses, KeyOf, Groups;
             LoopsFit(b, s) && Spread(b, s, os) && q < |os| && x in Uses(FusedBody(b, s), q)
             && x in Binds(FuseLoops(b.nodes, s))
    ensures x in FuseLoops(b.nodes, s)[q].inputs
  {
    hide Vars, KindVars, BodyVars, KeyOf, Groups, DepsOf, HoistedLoop;
    var o := os[q];
    SpreadAt(b, s, os, q, q);
    assert Shows(FuseLoops(b.nodes, s)[q], b.nodes, s, o, q);
    BindsOfFused(b, s, os, x);
    hide LoopsFit, FuseLoops, Made, Spread, AllNames, LoopNames, FusesLoop, NextName;
    ReadsOf(b, s, o, x);
    GenuineInRange(b.nodes, o);
    NodeAvoids(b, s, o.i);
    hide Genuine, Uses;
  }

  /** The node of a source is marked, binds and prints as it should. */
  lemma MadeMeets(b: Body, s: nat, o: Source)
    requires hide *; LoopsFit(b, s) && Genuine(b.nodes, o)
    ensures var n := Made(b.nodes, s, o);
            n.effect == IsEffect(n.kind) && (n.binding.Some? ==> MayBind(n.kind)) && (!n.effect ==> QuietKind(n.kind))
  {
    hide Vars, KindVars, BodyVars, Uses, KeyOf, Groups, DepsOf;
    if o.Kept? {
      assert Sound(b);
      NodeMeets(b, o.i);
      hide LoopsFit, QuietKind, HoistedLoop, Hoistable;
    } else {
      LoopKnown(b, s, o.i);
      var fe := b.nodes[o.i].kind.fe;
      var n := fe.body.nodes[o.j];
      assert HoistPlain(fe, n) && Quiet.Quiet(fe.iter);
      hide LoopsFit, LoopFit, Hoistable, HoistPlain, LoopNames, NextName;
      MappedQuiet(fe, n);
      hide QuietFetch;
    }
  }

  lemma MappedQuiet(fe: ForEachIr, n: Node)
    requires hide *; Hoistable(fe, n) && HoistPlain(fe, n) && Quiet.Quiet(fe.iter)
    ensures QuietFetch(LoopBatchFetch(fe, n))
  {
    hide *;
    MappedClean(fe, n, {});
  }

  lemma FusedRecorded(b: Body, s: nat, os: seq<Source>)
    requires LoopsFit(b, s) && Spread(b, s, os) && exists n :: n in b.nodes && FusesLoop(n)
    ensures Recorded(FusedBody(b, s)) && SilentNodesQuiet(FusedBody(b, s))
  {
    hide Vars, BodyVars, Uses, KeyOf, Groups, HoistedLoop;
    var f := FusedBody(b, s);
    LoopsWellFormed(b.nodes, s);
    hide LoopsFit, FuseLoops, FusesLoop, KindVars, QuietKind, Made, Genuine, Binds, IsEffect, DepsOf;
    forall q: nat | q < |f.nodes|
      ensures f.nodes[q].effect == IsEffect(f.nodes[q].kind) && (f.nodes[q].binding.Some? ==> MayBind(f.nodes[q].kind))
      ensures !f.nodes[q].effect ==> QuietKind(f.nodes[q].kind)
      ensures Uses(f, q) * Binds(f.nodes) <= f.nodes[q].inputs
    {
      SpreadAt(b, s, os, q, q);
      assert Shows(f.nodes[q], b.nodes, s, os[q], q);
      MadeMeets(b, s, os[q]);
      forall x | x in Uses(f, q) && x in Binds(f.nodes) ensures x in f.nodes[q].inputs { FusedRecords(b, s, os, q, x); }
    }
  }

  /** Moving requests out of loops keeps recorded reads and edges, single assignment, scoped leaks and
      quietness. */
  lemma LoopFusionIsSound(b: Body, s: nat)
    requires LoopsFit(b, s) && exists n :: n in b.nodes && FusesLoop(n)
    ensures Sound(FusedBody(b, s))
  {
    hide Vars, KindVars, BodyVars, Uses, KeyOf, Groups, DepsOf, HoistedLoop;
    var os := Sources(b.nodes, |b.nodes|);
    FusedSpread(b, s);
    hide LoopsFit, FusesLoop, Sources;
    FusedRecorded(b, s, os);
    FusedSingle(b, s, os);
    hide Spread, FuseLoops, Recorded, SingleAssignment, ScopedLeaks, SilentNodesQuiet;
  }
}
