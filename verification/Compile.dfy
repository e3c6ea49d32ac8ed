/** Liveness and scheduling carried into the nested bodies, as the optimizer does after its rewrites. */
module Compile {
  import opened Wrappers
  import opened Ast
  import opened Values
  import opened Evaluator
  import opened Ir
  import opened Exec
  import opened Quiet
  import opened Dependencies
  import opened Readiness
  import opened Traces
  import opened Refinement
  import opened Schedule
  import opened Pipeline

  /** Every nested body compiled, and then the body itself marked and scheduled. */
  ghost function Compiled(b: Body): Body
    decreases b, 1
  {
    hide *;
    Optimized(CompiledNodes(b))
  }

  ghost function CompiledNodes(b: Body): (r: seq<Node>)
    ensures |r| == |b.nodes|
    decreases b, 0
  {
    hide *;
    seq(|b.nodes|, i requires 0 <= i < |b.nodes| => b.nodes[i].(kind := CompiledKind(b.nodes[i].kind)))
  }

  ghost function CompiledKind(k: NodeKind): NodeKind
    decreases k, 0
  {
    hide *;
    match k
    case MatchN(m) =>
      MatchN(MatchIr(m.scrutinee, seq(|m.arms|, i
          requires 0 <= i < |m.arms| => assert m.arms[i] < k; CompiledArm(m.arms[i]))))
    case ForEachN(fe) => ForEachN(fe.(body := Compiled(fe.body)))
    case _ => k
  }

  ghost function CompiledArm(a: ArmIr): ArmIr
    decreases a, 0
  {
    hide *;
    assert a.body < a;
    if a.body.BodyArm? then ArmIr(a.pattern, BodyArm(Compiled(a.body.b))) else a
  }

  // ---------- what is asked of the body ----------

  /** Sound at every level; no retry arms; an iteration of a loop reads nothing that an earlier one wrote. */
  ghost predicate DeepSound(b: Body)
    decreases b
  {
    hide *;
    SoundNodes(b.nodes) && forall n | n in b.nodes :: DeepSoundKind(n.kind)
  }

  ghost predicate DeepSoundKind(k: NodeKind)
    decreases k
  {
    hide *;
    match k
    case MatchN(m) => forall a | a in m.arms :: DeepSoundArm(a)
    case ForEachN(fe) => DeepSound(fe.body) && BodyWrites(fe.body) !! BodyVars(fe.body, true)
    case _ => true
  }

  ghost predicate DeepSoundArm(a: ArmIr)
    decreases a
  {
    hide *;
    !a.body.RetryArm? && (a.body.BodyArm? ==> assert a.body < a; DeepSound(a.body.b))
  }

  // ---------- reads and writes stay ----------

  /** Same variables, same leaks, same mark. */
  ghost predicate SameFace(k: NodeKind, l: NodeKind) {
    && KindVars(k, true) == KindVars(l, true) && KindVars(k, false) == KindVars(l, false) && Leaks(k) == Leaks(l)
       && IsEffect(k) == IsEffect(l)
    && MayBind(k) == MayBind(l) && (IsEffect(k) || k == l)
  }

  lemma {:induction false} CompiledFace(k: NodeKind)
    ensures SameFace(CompiledKind(k), k)
    decreases k, 0
  {
    hide DepsOf, Binds, BodyWrites;
    match k {
      case MatchN(m) =>
        var l := CompiledKind(k).m;
        forall i: nat | i < |m.arms| ensures l.arms[i] == CompiledArm(m.arms[i]) { assert m.arms[i] < k; }
        ArmsFace(m.arms, l.arms);
        RetriesSame(m, l);
      case ForEachN(fe) =>
        BodyFace(fe.body);
        assert CompiledKind(k) == ForEachN(fe.(body := Compiled(fe.body)));
        hide Compiled;
      case _ =>
    }
  }

  lemma RetriesSame(m: MatchIr, l: MatchIr)
    requires hide *; l.scrutinee == m.scrutinee && |l.arms| == |m.arms|
             && forall i: nat | i < |m.arms| :: l.arms[i] == CompiledArm(m.arms[i])
    ensures RetryTarget(l) == RetryTarget(m)
  {
    if exists a :: a in m.arms && a.body.RetryArm? {
      var i: nat :| i < |m.arms| && m.arms[i].body.RetryArm?;
      assert l.arms[i] in l.arms;
    }
    if exists a :: a in l.arms && a.body.RetryArm? {
      var i: nat :| i < |l.arms| && l.arms[i].body.RetryArm?;
      assert m.arms[i] in m.arms;
    }
  }

  lemma {:induction false} ArmsFace(arms: seq<ArmIr>, after: seq<ArmIr>)
    requires hide *; |after| == |arms| && forall i: nat | i < |arms| :: after[i] == CompiledArm(arms[i])
    ensures ArmsIrVars(after, true) == ArmsIrVars(arms, true) && ArmsIrVars(after, false) == ArmsIrVars(arms, false)
    ensures ArmsLeaks(after) == ArmsLeaks(arms)
    decreases arms, 0
  {
    hide KindVars, BodyVars, DepsOf;
    if arms != [] {
      assert after[0] == CompiledArm(arms[0]);
      assert arms[0].body < arms[0];
      if arms[0].body.BodyArm? { BodyFace(arms[0].body.b); }
      ArmsFace(arms[1..], after[1..]);
      hide Compiled;
      assert ArmIrVars(after[0], true) == ArmIrVars(arms[0], true)
          && ArmIrVars(after[0], false) == ArmIrVars(arms[0], false);
    }
  }

  lemma {:induction false} BodyFace(b: Body)
    ensures BodyVars(Compiled(b), true) == BodyVars(b, true) && BodyVars(Compiled(b), false) == BodyVars(b, false)
    ensures BodyWrites(Compiled(b)) == BodyWrites(b) && Binds(Compiled(b).nodes) == Binds(b.nodes)
    decreases b, 1
  {
    hide DepsOf;
    var c := Compiled(b);
    BindsSame(CompiledNodes(b));
    hide WithLive;
    assert |c.nodes| == |b.nodes|;
    forall i: nat | i < |b.nodes|
        ensures c.nodes[i].binding == b.nodes[i].binding && c.nodes[i].kind == CompiledKind(b.nodes[i].kind) {
    }
    NodesFace(b.nodes, c.nodes);
  }

  lemma {:induction false} NodesFace(nodes: seq<Node>, after: seq<Node>)
    requires hide *; |after| == |nodes|
    requires
             forall i: nat | i < |nodes| ::
               after[i].binding == nodes[i].binding
               && after[i].kind == CompiledKind(nodes[i].kind)
    ensures NodesVars(after, true) == NodesVars(nodes, true) && NodesVars(after, false) == NodesVars(nodes, false)
    ensures NodesWrites(after) == NodesWrites(nodes) && Binds(after) == Binds(nodes)
    decreases nodes, 0
  {
    hide BodyVars, DepsOf, CompiledKind, KindVars, Leaks;
    if nodes != [] {
      assert nodes[0].kind < nodes[0];
      CompiledFace(nodes[0].kind);
      NodesFace(nodes[1..], after[1..]);
      assert nodes == [nodes[0]] + nodes[1..] && after == [after[0]] + after[1..];
      assert Binds(nodes) == BindSet(nodes[0]) + Binds(nodes[1..])
          && Binds(after) == BindSet(after[0]) + Binds(after[1..]);
    }
  }

  // ---------- the compiled body is ready to run ----------

  /** Equal but for nested bodies that have been compiled. */
  ghost predicate Compiling(a: Body, b: Body) {
    hide *;
    |b.nodes| == |a.nodes|
    && forall i: nat | i < |a.nodes| :: b.nodes[i] == a.nodes[i].(kind := CompiledKind(a.nodes[i].kind))
  }

  lemma NodesCompiling(b: Body)
    ensures Compiling(b, Body(CompiledNodes(b), []))
  {
    hide CompiledKind;
  }

  lemma CompiledNode(a: Body, b: Body, i: nat)
    requires hide Uses; Compiling(a, b) && i < |a.nodes|
    ensures Uses(b, i) == Uses(a, i) && BindSet(b.nodes[i]) == BindSet(a.nodes[i])
            && Leaks(b.nodes[i].kind) == Leaks(a.nodes[i].kind)
    ensures IsEffect(b.nodes[i].kind) == IsEffect(a.nodes[i].kind)
            && MayBind(b.nodes[i].kind) == MayBind(a.nodes[i].kind)
    ensures IsEffect(a.nodes[i].kind) || b.nodes[i].kind == a.nodes[i].kind
  {
    hide DepsOf;
    CompiledFace(a.nodes[i].kind);
    hide CompiledKind, KindVars, Leaks, IsEffect, MayBind;
  }

  lemma CompilingRecorded(a: Body, b: Body)
    requires Compiling(a, b) && Recorded(a) && SilentNodesQuiet(a)
    ensures Recorded(b) && SilentNodesQuiet(b)
  {
    hide BodyVars, Uses;
    NodesFace(a.nodes, b.nodes);
    hide CompiledKind;
    forall i: nat | i < |a.nodes|
      ensures b.nodes[i].id == i && b.nodes[i].effect == IsEffect(b.nodes[i].kind)
      ensures b.nodes[i].binding.Some? ==> MayBind(b.nodes[i].kind)
      ensures !b.nodes[i].effect ==> QuietKind(b.nodes[i].kind)
      ensures b.nodes[i].deps == DepsOf(b.nodes, i) && Uses(b, i) * Binds(b.nodes) <= b.nodes[i].inputs
    {
      CompiledNode(a, b, i);
      SameEdges(a.nodes, b.nodes, i);
    }
    hide DepsOf, Binds, KindVars, QuietKind, IsEffect, MayBind;
  }

  lemma CompilingSingle(a: Body, b: Body)
    requires Compiling(a, b) && SingleAssignment(a) && ScopedLeaks(a)
    ensures SingleAssignment(b) && ScopedLeaks(b)
  {
    hide KindVars, BodyVars, DepsOf;
    forall i: nat | i < |a.nodes|
      ensures Uses(b, i) == Uses(a, i) && BindSet(b.nodes[i]) == BindSet(a.nodes[i])
              && Leaks(b.nodes[i].kind) == Leaks(a.nodes[i].kind)
    {
      CompiledNode(a, b, i);
    }
    CompilingSize(a, b);
    hide Compiling, Uses, BindSet, Leaks;
  }

  lemma CompilingSize(a: Body, b: Body)
    requires Compiling(a, b)
    ensures |a.nodes| == |b.nodes|
  {
  }

  lemma CompiledSound(b: Body)
    requires SoundNodes(b.nodes)
    ensures SoundNodes(CompiledNodes(b))
  {
    hide KindVars, BodyVars, Uses, DepsOf;
    NodesCompiling(b);
    var a, c := Body(b.nodes, []), Body(CompiledNodes(b), []);
    assert Compiling(a, c);
    hide Compiling, Recorded, SingleAssignment, ScopedLeaks, SilentNodesQuiet;
    CompilingRecorded(a, c);
    CompilingSingle(a, c);
  }

  lemma {:induction false} CompiledIsReady(b: Body)
    requires DeepSound(b)
    ensures Ready(Compiled(b))
    decreases b, 1
  {
    hide KindVars, BodyVars, Uses, DepsOf;
    CompiledSound(b);
    NodesCompiling(b);
    var nodes := CompiledNodes(b);
    forall n | n in nodes ensures ReadyKind(n.kind) {
      var i: nat :| i < |nodes| && nodes[i] == n;
      assert b.nodes[i] in b.nodes;
      assert b.nodes[i].kind < b.nodes[i];
      KindIsReady(b.nodes[i].kind);
    }
    hide SoundNodes, ReadyKind, CompiledNodes;
    OptimizedIsReady(nodes);
  }

  lemma {:induction false} KindIsReady(k: NodeKind)
    requires DeepSoundKind(k)
    ensures ReadyKind(CompiledKind(k))
    decreases k, 0
  {
    hide KindVars, BodyVars, Uses, DepsOf;
    match k {
      case MatchN(m) =>
        var l := CompiledKind(k).m;
        forall a | a in l.arms ensures ReadyArm(a) {
          var i: nat :| i < |l.arms| && l.arms[i] == a;
          assert m.arms[i] in m.arms && m.arms[i] < k;
          ArmIsReady(m.arms[i]);
        }
      case ForEachN(fe) =>
        CompiledIsReady(fe.body);
        BodyFace(fe.body);
        assert CompiledKind(k) == ForEachN(fe.(body := Compiled(fe.body)));
        hide Compiled, Ready;
      case _ =>
    }
  }

  lemma {:induction false} ArmIsReady(a: ArmIr)
    requires DeepSoundArm(a)
    ensures ReadyArm(CompiledArm(a))
    decreases a, 0
  {
    hide KindVars, BodyVars, Uses, DepsOf;
    assert a.body < a;
    if a.body.BodyArm? { CompiledIsReady(a.body.b); }
    hide Compiled, Ready;
  }

  // ---------- compiling changes no run in program order ----------

  /** Equal in what a run in program order looks at. */
  ghost predicate RunsAs(a: Node, b: Node) {
    b.kind == CompiledKind(a.kind) && b.binding == a.binding && b.effect == a.effect
  }

  lemma CompiledRunsAs(b: Body, i: nat)
    requires hide *; i < |b.nodes|
    ensures |Compiled(b).nodes| == |b.nodes| && RunsAs(b.nodes[i], Compiled(b).nodes[i])
  {
    BindsSame(CompiledNodes(b));
    hide WithLive, CompiledKind;
  }

  lemma FetchStays(k: NodeKind)
    ensures CompiledKind(k).FetchN? == k.FetchN? && (k.FetchN? ==> CompiledKind(k) == k)
  {
  }

  lemma RoundSame(p: Prog, a: Body, b: Body, i: NodeId, r: Run, hist: seq<Request>)
    requires hide *; i < |a.nodes| && i < |b.nodes| && RunsAs(a.nodes[i], b.nodes[i]) && IsFetch(a, i)
    ensures RoundStep(p, b, [i], [i], r, hist) == RoundStep(p, a, [i], [i], r, hist)
  {
    hide FetchOne, Prepare, Eval, ApplyPipeline;
    FetchStays(a.nodes[i].kind);
    hide CompiledKind;
    if r.ctl.Next? {
      var h := hist + Mutations(r.evs);
      assert LaunchTo(p.world, a, [i], 0, r.env, h) == LaunchTo(p.world, b, [i], 0, r.env, h);
      var l := LaunchTo(p.world, a, [i], 1, r.env, h);
      assert l == LaunchTo(p.world, b, [i], 1, r.env, h);
      var s := r.(evs := r.evs + LaunchEvents(l));
      assert Collect(a, [i], 0, l.vals, s) == Collect(b, [i], 0, l.vals, s);
    }
  }

  lemma {:induction false} BodyRunsSame(p: Prog, fuel: nat, b: Body, env: Env, hist: seq<Request>)
    requires DeepSound(b)
    ensures RunBody(p, InOrder, fuel, Compiled(b), env, hist) == RunBody(p, InOrder, fuel, b, env, hist)
    decreases b, 9, 0
  {
    hide RunNode, RunLoop, RunMatch, LaunchTo, FetchOne, Prepare, Eval, ApplyPipeline, DepsOf;
    if |b.nodes| > 0 { CompiledRunsAs(b, 0); } else { assert |Compiled(b).nodes| == 0; }
    hide Compiled;
    OrderRunsSame(p, fuel, b, |b.nodes|, env, hist);
  }

  lemma {:induction false} OrderRunsSame(p: Prog, fuel: nat, b: Body, k: nat, env: Env, hist: seq<Request>)
    requires hide *; DeepSound(b) && k <= |b.nodes| && |Compiled(b).nodes| == |b.nodes|
    ensures RunOrder(p, fuel, Compiled(b), k, env, hist) == RunOrder(p, fuel, b, k, env, hist)
    decreases b, 8, k
  {
    hide RunLoop, RunMatch, LaunchTo, FetchOne, Prepare, Eval, ApplyPipeline, DepsOf, BodyVars, RunNode, RoundStep,
      CompiledKind, SoundNodes;
    if k > 0 {
      OrderRunsSame(p, fuel, b, k - 1, env, hist);
      var r := RunOrder(p, fuel, b, k - 1, env, hist);
      CompiledRunsAs(b, k - 1);
      FetchStays(b.nodes[k - 1].kind);
      hide Compiled;
      if IsFetch(b, k - 1) {
        RoundSame(p, b, Compiled(b), k - 1, r, hist);
      } else if r.ctl.Next? {
        assert b.nodes[k - 1] in b.nodes;
        NodeRunsSame(p, fuel, b, Compiled(b), b.nodes[k - 1], Compiled(b).nodes[k - 1], r.env, hist + Mutations(r.evs));
      }
    }
  }

  lemma {:induction false} NodeRunsSame(p: Prog, fuel: nat, a: Body, b: Body, n: Node, o: Node, env: Env,
      hist: seq<Request>)
    requires RunsAs(n, o) && DeepSoundKind(n.kind)
    ensures RunNode(p, InOrder, fuel, b, o, env, hist) == RunNode(p, InOrder, fuel, a, n, env, hist)
    decreases n, 5, 0
  {
    hide FetchOne, Prepare, ApplyPipeline, Eval, RunBody;
    match n.kind {
      case MatchN(m) =>
        assert m < n.kind;
        MatchRunsSame(p, fuel, m, o.kind.m, a, b, env, hist, MAX_RETRIES);
        hide RunMatch;
      case ForEachN(fe) =>
        var v := Eval(fe.iter, env, None).val;
        assert o.kind == ForEachN(fe.(body := Compiled(fe.body)));
        hide Compiled;
        assert fe.body < n;
        if v.Some? { LoopRunsSame(p, fuel, fe, v.value.Items(), |v.value.Items()|, env, hist); }
        hide RunLoop;
      case ExprN(e) => assert RunExpr(p, InOrder, fuel, o, e, env, hist) == RunExpr(p, InOrder, fuel, n, e, env, hist);
      case _ =>
    }
  }

  lemma {:induction false} MatchRunsSame(p: Prog, fuel: nat, m: MatchIr, l: MatchIr, a: Body, b: Body, env: Env,
      hist: seq<Request>, attempts: nat)
    requires hide *; l.scrutinee == m.scrutinee && |l.arms| == |m.arms|
             && forall i: nat | i < |m.arms| :: l.arms[i] == CompiledArm(m.arms[i])
    requires forall x | x in m.arms :: DeepSoundArm(x)
    ensures RunMatch(p, InOrder, fuel, l, b, env, hist, attempts) == RunMatch(p, InOrder, fuel, m, a, env, hist,
            attempts)
    decreases m, 3, attempts
  {
    hide FetchOne, Prepare, ApplyPipeline, Eval;
    var v := Eval(m.scrutinee, env, None).val;
    if v.Some? {
      FirstArmIn(m.arms, v.value);
      FirstArmSame(m.arms, l.arms, v.value);
      var chosen := FirstArm(m.arms, v.value);
      if chosen.Some? && chosen.value.body.BodyArm? {
        var arm := chosen.value;
        assert arm < m && arm.body < arm;
        BodyRunsSame(p, fuel, arm.body.b, InsertAll(env, MatchPattern(arm.pattern, v.value).value), hist);
      }
    }
    hide RunBody, Compiled;
  }

  lemma {:induction false} FirstArmSame(arms: seq<ArmIr>, after: seq<ArmIr>, v: Value)
    requires hide *; |after| == |arms| && forall i: nat | i < |arms| :: after[i] == CompiledArm(arms[i])
    ensures FirstArm(arms, v).None? ==> FirstArm(after, v).None?
    ensures FirstArm(arms, v).Some? ==> FirstArm(after, v) == Some(CompiledArm(FirstArm(arms, v).value))
  {
    hide Compiled;
    if arms != [] {
      assert after[0] == CompiledArm(arms[0]);
      FirstArmSame(arms[1..], after[1..], v);
    }
  }

  lemma {:induction false} LoopRunsSame(p: Prog, fuel: nat, fe: ForEachIr, items: seq<Value>, k: nat, env: Env,
      hist: seq<Request>)
    requires hide *; k <= |items| && DeepSound(fe.body)
    ensures RunLoop(p, InOrder, fuel, fe.(body := Compiled(fe.body)), items, k, env, hist) == RunLoop(p, InOrder, fuel,
            fe, items, k, env, hist)
    decreases fe.body, 10, k
  {
    hide FetchOne, Prepare, Eval, ApplyPipeline, RunBody, Compiled;
    if k > 0 {
      LoopRunsSame(p, fuel, fe, items, k - 1, env, hist);
      var r := RunLoop(p, InOrder, fuel, fe, items, k - 1, env, hist);
      if r.ctl.Next? { BodyRunsSame(p, fuel, fe.body, Insert(r.env, fe.loopVar, items[k - 1]),
          hist + Mutations(r.evs)); }
    }
  }

  // ---------- the theorem ----------

  /** The waves of a compiled body, at every level, cannot be told apart from running its nodes as they were
      written, and agree on every live binding. */
  lemma CompiledMeansTheSame(p: Prog, fuel: nat, b: Body, env: Env, hist: seq<Request>)
    requires hide *; ReadyProg(p) && DeepSound(b)
    requires RunBody(p, InOrder, fuel, b, env, hist).ctl != Fail(true)
    requires RunBody(p, Waves, fuel, Compiled(b), env, hist).ctl != Fail(true)
    ensures var r, s := RunBody(p, InOrder, fuel, b, env, hist), RunBody(p, Waves, fuel, Compiled(b), env, hist);
            && s.ctl == r.ctl && Observe(s.evs) == Observe(r.evs)
            && (r.ctl.Next? ==>
                  forall i: nat, x: string
                    | i < |b.nodes| && IsLive(b.nodes, i) && x in BindSet(b.nodes[i]) ::
                    Lookup(s.env, x) == Lookup(r.env, x))
  {
    hide RunOrder, RunWaves, RunNode, RunLoop, RunMatch, RunTail, NodeStep, RoundStep, LaunchTo, FetchOne, Prepare,
      EvalPath, Eval, ApplyPipeline, KindVars, BodyVars, Uses, DepsOf, Compiled;
    var c := Compiled(b);
    CompiledIsReady(b);
    BodyRunsSame(p, fuel, b, env, hist);
    hide RunBody, Schedule.Optimized, Schedule.Level, Schedule.WithLive, Ready, DeepSound;
    WavesRefineProgramOrder(p, fuel, c, env, hist);
    var r, s := RunBody(p, InOrder, fuel, b, env, hist), RunBody(p, Waves, fuel, c, env, hist);
    if r.ctl.Next? {
      forall i: nat, x: string | i < |b.nodes| && IsLive(b.nodes, i) && x in BindSet(b.nodes[i])
          ensures Lookup(s.env, x) == Lookup(r.env, x) {
        LiveIsCompiled(b, i);
        CompiledRunsAs(b, i);
      }
    }
  }

  lemma {:induction false} SameLive(a: seq<Node>, b: seq<Node>, i: nat)
    requires |a| == |b| && i < |a| && forall j: nat | j < |a| :: a[j].deps == b[j].deps && a[j].effect == b[j].effect
    ensures IsLive(a, i) ==> IsLive(b, i)
    decreases |a| - i
  {
    if IsLive(a, i) && !a[i].effect {
      var j: nat :| i < j < |a| && i in a[j].deps && IsLive(a, j);
      SameLive(a, b, j);
    }
  }

  lemma LiveIsCompiled(b: Body, i: nat)
    requires hide *; i < |b.nodes| && IsLive(b.nodes, i)
    ensures InWaves(Compiled(b), |Compiled(b).waves|, i)
  {
    SameLive(b.nodes, CompiledNodes(b), i);
    hide IsLive;
    LiveIsScheduled(CompiledNodes(b), i);
  }
}
