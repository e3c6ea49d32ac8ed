/** Bodies that return, if at all, in their last statement: the optimizer leaves them so, and introduces no
    failure into them. */
module LateReturns {
  import opened Ir
  import opened Evaluator
  import opened Exec
  import opened Dependencies
  import opened Readiness
  import opened Traces
  import opened ReferenceRun
  import opened Refinement
  import opened Schedule
  import Dedup
  import Fusion
  import opened LoopFusion
  import opened Compile
  import opened OptimizerPipeline

  ghost predicate LateNodes(nodes: seq<Node>) {
    && (forall i: nat | i < |nodes| && CanReturn(nodes[i].kind) :: i == |nodes| - 1)
    && forall n | n in nodes :: ReturnsLastKind(n.kind)
  }

  /** `l` returns no earlier than `k`. */
  ghost predicate AsLate(k: NodeKind, l: NodeKind) {
    (CanReturn(l) ==> CanReturn(k)) && (ReturnsLastKind(k) ==> ReturnsLastKind(l))
  }

  lemma LateOneByOne(nodes: seq<Node>, after: seq<Node>)
    requires LateNodes(nodes) && |after| == |nodes|
    requires forall i: nat | i < |nodes| :: AsLate(nodes[i].kind, after[i].kind)
    ensures LateNodes(after)
  {
    hide CanReturn, ReturnsLastKind;
    forall n | n in after ensures ReturnsLastKind(n.kind) {
      var i: nat :| i < |after| && after[i] == n;
      assert nodes[i] in nodes;
    }
  }

  // ---------- marks and schedules ----------

  lemma {:induction false} CompiledIsLate(b: Body)
    requires ReturnsLast(b)
    ensures ReturnsLast(Compiled(b))
    decreases b, 1
  {
    var after := CompiledNodes(b);
    forall i: nat | i < |b.nodes| ensures AsLate(b.nodes[i].kind, after[i].kind) {
      assert b.nodes[i] in b.nodes && b.nodes[i].kind < b.nodes[i];
      KindIsLate(b.nodes[i].kind);
    }
    LateOneByOne(b.nodes, after);
    hide CompiledNodes;
    forall i: nat | i < |after| ensures AsLate(after[i].kind, WithLive(after)[i].kind) {}
    LateOneByOne(after, WithLive(after));
  }

  lemma {:induction false} KindIsLate(k: NodeKind)
    requires ReturnsLastKind(k)
    ensures AsLate(k, CompiledKind(k))
    decreases k, 0
  {
    match k {
      case MatchN(m) =>
        var l := CompiledKind(k).m;
        forall a | a in l.arms ensures ReturnsLastArm(a) {
          var i: nat :| i < |l.arms| && l.arms[i] == a;
          assert m.arms[i] in m.arms && m.arms[i] < k;
          ArmIsLate(m.arms[i]);
        }
      case ForEachN(fe) =>
        CompiledIsLate(fe.body);
        assert CompiledKind(k) == ForEachN(fe.(body := Compiled(fe.body)));
        hide Compiled, ReturnsLast;
      case _ =>
    }
  }

  lemma {:induction false} ArmIsLate(a: ArmIr)
    requires ReturnsLastArm(a)
    ensures ReturnsLastArm(CompiledArm(a))
    decreases a, 0
  {
    assert a.body < a;
    if a.body.BodyArm? { CompiledIsLate(a.body.b); }
    hide Compiled, ReturnsLast;
  }

  /** Marked and scheduled at every level, a body that succeeds in program order succeeds in waves. */
  lemma CompiledIntroducesNoFailure(p: Prog, fuel: nat, b: Body, env: Env, hist: seq<Request>)
    requires ReadyProg(p) && LateProg(p) && DeepSound(b) && ReturnsLast(b)
    requires !RunBody(p, InOrder, fuel, b, env, hist).ctl.Fail?
    ensures var r, s := RunBody(p, InOrder, fuel, b, env, hist), RunBody(p, Waves, fuel, Compiled(b), env, hist);
            s.ctl == r.ctl && Observe(s.evs) == Observe(r.evs)
  {
    hide *;
    CompiledIsReady(b);
    CompiledIsLate(b);
    BodyRunsSame(p, fuel, b, env, hist);
    WavesIntroduceNoFailure(p, fuel, Compiled(b), env, hist);
  }

  // ---------- rewrites ----------

  ghost predicate NeverReturns(nodes: seq<Node>) {
    forall n | n in nodes :: !CanReturn(n.kind) && ReturnsLastKind(n.kind)
  }

  /** Nodes that never return and then nodes that return late. */
  lemma LateAfter(done: seq<Node>, last: seq<Node>)
    requires NeverReturns(done) && LateNodes(last)
    ensures LateNodes(done + last)
  {
    hide CanReturn, ReturnsLastKind;
    var all := done + last;
    forall i: nat | i < |done| ensures !CanReturn(all[i].kind) { assert done[i] in done; }
    forall i: nat | |done| <= i < |all| ensures all[i] == last[i - |done|] {}
  }

  lemma BothNever(done: seq<Node>, last: seq<Node>)
    requires NeverReturns(done) && NeverReturns(last)
    ensures NeverReturns(done + last)
  {
  }

  lemma NeverIsLate(nodes: seq<Node>)
    requires NeverReturns(nodes)
    ensures LateNodes(nodes)
  {
    forall i: nat | i < |nodes| ensures !CanReturn(nodes[i].kind) { assert nodes[i] in nodes; }
  }

  lemma BeforeTheLast(nodes: seq<Node>, i: nat)
    requires LateNodes(nodes) && i < |nodes|
    ensures ReturnsLastKind(nodes[i].kind) && (i + 1 < |nodes| ==> !CanReturn(nodes[i].kind))
  {
    assert nodes[i] in nodes;
  }

  /** New edges do not matter. */
  lemma RewiredIsLate(nodes: seq<Node>)
    requires LateNodes(nodes)
    ensures LateNodes(WithDeps(nodes))
  {
    hide DepsOf;
    forall i: nat | i < |nodes| ensures AsLate(nodes[i].kind, WithDeps(nodes)[i].kind) {}
    LateOneByOne(nodes, WithDeps(nodes));
  }

  lemma MergedIsLate(nodes: seq<Node>)
    requires LateNodes(nodes)
    ensures LateNodes(Dedup.DedupNodes(nodes))
  {
    hide Fusion.KeyOf, Fusion.Groups, Dedup.Original;
    forall i: nat | i < |nodes| ensures AsLate(nodes[i].kind, Dedup.DedupNodes(nodes)[i].kind) {}
    LateOneByOne(nodes, Dedup.DedupNodes(nodes));
  }

  /** What a node of a fused list becomes. */
  lemma ExpandIsLate(nodes: seq<Node>, i: nat, at: nat)
    requires hide *; LateNodes(nodes) && i < |nodes|
    ensures LateNodes(Fusion.Expand(nodes, i, at))
    ensures i + 1 < |nodes| ==> NeverReturns(Fusion.Expand(nodes, i, at))
  {
    hide Fusion.KeyOf, Fusion.Groups, DepsOf, HoistedLoop, Fusion.GroupAt;
    BeforeTheLast(nodes, i);
    hide LateNodes;
    var all := Fusion.Expand(nodes, i, at);
    assert |all| == 1 || NeverReturns(all);
    if |all| == 1 { OneIsLate(all[0]); } else { NeverIsLate(all); }
  }

  lemma OneIsLate(n: Node)
    requires ReturnsLastKind(n.kind)
    ensures LateNodes([n])
  {
  }

  lemma {:induction false} FusedSoFar(nodes: seq<Node>, k: nat)
    requires hide *; LateNodes(nodes) && k < |nodes|
    ensures NeverReturns(Fusion.Rebuild(nodes, k))
  {
    hide LateNodes, NeverReturns, Fusion.Expand;
    if k > 0 {
      FusedSoFar(nodes, k - 1);
      var done := Fusion.Rebuild(nodes, k - 1);
      ExpandIsLate(nodes, k - 1, |done|);
      BothNever(done, Fusion.Expand(nodes, k - 1, |done|));
    } else {
      NoneReturns();
    }
  }

  lemma NoneReturns()
    ensures NeverReturns([])
  {
  }

  lemma BatchedIsLate(nodes: seq<Node>)
    requires LateNodes(nodes)
    ensures LateNodes(Fusion.FuseNodes(nodes))
  {
    hide Fusion.KeyOf, DepsOf, HoistedLoop, LateNodes, NeverReturns, Fusion.Expand, Fusion.Groups;
    if nodes != [] {
      var done := Fusion.Rebuild(nodes, |nodes| - 1);
      FusedSoFar(nodes, |nodes| - 1);
      ExpandIsLate(nodes, |nodes| - 1, |done|);
      LateAfter(done, Fusion.Expand(nodes, |nodes| - 1, |done|));
      RewiredIsLate(Fusion.Rebuild(nodes, |nodes|));
    } else {
      assert Fusion.FuseNodes(nodes) == [];
      NoneReturns();
      NeverIsLate([]);
    }
  }

  lemma LoopExpandIsLate(n: Node, s: nat, at: nat)
    requires ReturnsLastKind(n.kind)
    ensures LateNodes(LoopExpand(n, s, at))
    ensures !CanReturn(n.kind) ==> NeverReturns(LoopExpand(n, s, at))
  {
    hide Fusion.KeyOf, Fusion.Groups, DepsOf, HoistedLoop;
    if FusesLoop(n) {
      var fe := n.kind.fe;
      var done := LoopBatches(fe, |fe.body.nodes|, s, at);
      var loop := LoopNode(n, s, at + |done|);
      BatchesNeverReturn(fe, |fe.body.nodes|, s, at);
      HoistedIsLate(fe, s);
      OneIsLate(loop);
      LateAfter(done, [loop]);
      if !CanReturn(n.kind) { BothNever(done, [loop]); }
    } else {
      OneIsLate(n.(id := at));
    }
  }

  lemma {:induction false} BatchesNeverReturn(fe: ForEachIr, k: nat, s: nat, at: nat)
    requires hide *; k <= |fe.body.nodes|
    ensures NeverReturns(LoopBatches(fe, k, s, at))
  {
    hide Fusion.KeyOf, Fusion.Groups, DepsOf, HoistedLoop, Hoistable;
    if k > 0 { BatchesNeverReturn(fe, k - 1, s, at); }
  }

  lemma HoistedIsLate(fe: ForEachIr, s: nat)
    requires ReturnsLast(fe.body)
    ensures HoistedLoop(fe, s).canReturn == fe.canReturn && ReturnsLast(HoistedLoop(fe, s).body)
  {
    hide Fusion.KeyOf, Fusion.Groups, DepsOf, Hoistable;
    var nodes := LoopBodyNodes(fe, s);
    forall i: nat | i < |nodes| ensures AsLate(fe.body.nodes[i].kind, nodes[i].kind) {}
    LateOneByOne(fe.body.nodes, nodes);
    RewiredIsLate(nodes);
  }

  lemma {:induction false} HoistedSoFar(nodes: seq<Node>, k: nat, s: nat)
    requires hide *; LateNodes(nodes) && k < |nodes|
    ensures NeverReturns(LoopRebuild(nodes, k, s))
  {
    hide Fusion.KeyOf, Fusion.Groups, DepsOf, HoistedLoop, LateNodes, NeverReturns, LoopExpand;
    if k > 0 {
      HoistedSoFar(nodes, k - 1, s);
      var done, from := LoopRebuild(nodes, k - 1, s), NextName(nodes, k - 1, s);
      BeforeTheLast(nodes, k - 1);
      LoopExpandIsLate(nodes[k - 1], from, |done|);
      BothNever(done, LoopExpand(nodes[k - 1], from, |done|));
    } else {
      NoneReturns();
    }
  }

  lemma HoistedNodesAreLate(nodes: seq<Node>, s: nat)
    requires LateNodes(nodes)
    ensures LateNodes(FuseLoops(nodes, s))
  {
    hide Fusion.KeyOf, Fusion.Groups, DepsOf, HoistedLoop, LateNodes, NeverReturns, LoopExpand, FusesLoop;
    if nodes != [] {
      var k := |nodes| - 1;
      var done, from := LoopRebuild(nodes, k, s), NextName(nodes, k, s);
      HoistedSoFar(nodes, k, s);
      BeforeTheLast(nodes, k);
      LoopExpandIsLate(nodes[k], from, |done|);
      LateAfter(done, LoopExpand(nodes[k], from, |done|));
      RewiredIsLate(LoopRebuild(nodes, |nodes|, s));
    }
  }

  lemma RewrittenIsLate(b: Body, s: nat)
    requires ReturnsLast(b)
    ensures ReturnsLast(Rewritten(b, s))
  {
    hide FuseLoops, Dedup.DedupNodes, Fusion.FuseNodes;
    HoistedNodesAreLate(b.nodes, s);
    MergedIsLate(Hoisted(b, s).nodes);
    BatchedIsLate(Merged(Hoisted(b, s)).nodes);
  }

  /** The whole optimizer introduces no failure: what succeeds as it was written succeeds rewritten, scheduled
      at every level and run in waves, with the same outcome and the same observations. */
  lemma OptimizerIntroducesNoFailure(c: Setup, s: nat)
    requires ReadyProg(c.p) && LateProg(c.p) && DeepSound(c.b) && ReturnsLast(c.b) && Rewritable(c, s)
    requires !RunBody(c.p, InOrder, c.fuel, c.b, c.ea, c.hist).ctl.Fail?
    ensures var r, w := RunBody(c.p, InOrder, c.fuel, c.b, c.ea, c.hist),
                        RunBody(c.p, Waves, c.fuel, Compiled(Rewritten(c.b, s)), c.ea, c.hist);
            w.ctl == r.ctl && Observe(w.evs) == Observe(r.evs)
  {
    hide RunOrder, RunWaves, RunNode, RunLoop, RunMatch, RunTail, NodeStep, RoundStep, LaunchTo, FetchOne, Prepare,
      EvalPath, Eval, ApplyPipeline, KindVars, BodyVars, Uses, Fusion.KeyOf, Fusion.Groups, DepsOf, HoistedLoop,
      RunBody, Rewritable, Rewritten, DeepSound, ReturnsLast, Compiled, GivenNames, LoopBatchesSent, Observe;
    RewritesPreserve(c, s);
    RewrittenIsLate(c.b, s);
    CompiledIntroducesNoFailure(c.p, c.fuel, Rewritten(c.b, s), c.ea, c.hist);
  }
}
