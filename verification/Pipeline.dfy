/** The passes put together: what the executor runs after them, against the statements as written. */
module Pipeline {
  import opened Wrappers
  import opened Evaluator
  import opened Ir
  import opened Exec
  import opened Quiet
  import opened Dependencies
  import opened Readiness
  import opened Traces
  import opened Refinement
  import opened Schedule
  import opened BodyEquality

  ghost predicate NestedReady(nodes: seq<Node>) {
    forall n | n in nodes :: ReadyKind(n.kind)
  }

  ghost predicate SoundNodes(nodes: seq<Node>) {
    Sound(Body(nodes, []))
  }

  /** Equal in everything but the live mark. */
  ghost predicate Marked(a: Body, b: Body) {
    |a.nodes| == |b.nodes| && Binds(a.nodes) == Binds(b.nodes)
    && forall i: nat | i < |a.nodes| :: b.nodes[i] == a.nodes[i].(live := b.nodes[i].live)
  }

  lemma MarkedRecorded(a: Body, b: Body)
    requires Marked(a, b) && Recorded(a)
    ensures Recorded(b)
  {
    hide KindVars;
    forall i: nat | i < |b.nodes| ensures b.nodes[i].deps == DepsOf(b.nodes, i) && Uses(b, i) == Uses(a, i) {
      SameEdges(a.nodes, b.nodes, i);
    }
    hide DepsOf, Binds, IsEffect, MayBind;
  }

  lemma MarkedUses(a: Body, b: Body, i: nat)
    requires hide Uses; Marked(a, b) && i < |a.nodes|
    ensures Uses(a, i) == Uses(b, i) && BindSet(a.nodes[i]) == BindSet(b.nodes[i]) && a.nodes[i].kind == b.nodes[i].kind
  {
    hide DepsOf;
  }

  lemma MarkedSingle(a: Body, b: Body)
    requires Marked(a, b) && SingleAssignment(a)
    ensures SingleAssignment(b)
  {
    hide KindVars, BodyVars, DepsOf;
    forall i: nat | i < |a.nodes|
        ensures Uses(a, i) == Uses(b, i) && BindSet(a.nodes[i]) == BindSet(b.nodes[i]) { MarkedUses(a, b, i); }
    hide Marked, Uses, BindSet;
    assert |a.nodes| == |b.nodes| by { MarkedSize(a, b); }
  }

  lemma MarkedSize(a: Body, b: Body)
    requires Marked(a, b)
    ensures |a.nodes| == |b.nodes|
  {
  }

  lemma MarkedLeaks(a: Body, b: Body)
    requires Marked(a, b) && ScopedLeaks(a)
    ensures ScopedLeaks(b)
  {
    hide KindVars, BodyVars, DepsOf;
    forall i: nat | i < |a.nodes|
      ensures Uses(a, i) == Uses(b, i) && BindSet(a.nodes[i]) == BindSet(b.nodes[i])
              && Leaks(a.nodes[i].kind) == Leaks(b.nodes[i].kind)
    {
      MarkedUses(a, b, i);
    }
    MarkedSize(a, b);
    hide Marked, Uses, BindSet, Leaks;
  }

  /** Liveness marks do not matter to what makes a body sound. */
  lemma LiveMarksAreSound(nodes: seq<Node>)
    requires SoundNodes(nodes)
    ensures Sound(Optimized(nodes))
  {
    hide KindVars, BodyVars, Uses, DepsOf;
    var a, b := Body(nodes, []), Optimized(nodes);
    BindsSame(nodes);
    assert Marked(a, b);
    MarkedRecorded(a, b);
    MarkedSingle(a, b);
    MarkedLeaks(a, b);
    hide Recorded, SingleAssignment, ScopedLeaks, WithLive, QuietKind;
  }

  lemma BindsSame(nodes: seq<Node>)
    ensures Binds(WithLive(nodes)) == Binds(nodes)
    ensures |WithLive(nodes)| == |nodes|
            && forall i: nat | i < |nodes| :: WithLive(nodes)[i] == nodes[i].(live := IsLive(nodes, i))
  {
    var ns := WithLive(nodes);
    hide IsLive;
    forall x | x in Binds(nodes) ensures x in Binds(ns) {
      var n :| n in nodes && n.binding.Some? && n.binding.value == x;
      var i: nat :| i < |nodes| && nodes[i] == n;
      assert ns[i] in ns;
    }
    forall x | x in Binds(ns) ensures x in Binds(nodes) {
      var n :| n in ns && n.binding.Some? && n.binding.value == x;
      var i: nat :| i < |ns| && ns[i] == n;
      assert nodes[i] in nodes;
    }
  }

  lemma OptimizedIsReady(nodes: seq<Node>)
    requires SoundNodes(nodes) && NestedReady(nodes)
    ensures Ready(Optimized(nodes))
  {
    hide KindVars, BodyVars, Uses, DepsOf;
    var b := Optimized(nodes);
    LiveMarksAreSound(nodes);
    SoundIsWired(nodes);
    DepsBackward(nodes);
    OptimizedIsScheduled(nodes);
    BindsSame(nodes);
    hide Sound, Scheduled, ReadyKind;
    forall n | n in b.nodes ensures ReadyKind(n.kind) {
      var i: nat :| i < |b.nodes| && b.nodes[i] == n;
      assert nodes[i] in nodes && n.kind == nodes[i].kind;
    }
  }

  lemma SoundIsWired(nodes: seq<Node>)
    requires SoundNodes(nodes)
    ensures Wired(nodes)
  {
    hide KindVars, BodyVars, Uses, DepsOf;
    forall i: nat | i < |nodes| ensures nodes[i].deps == DepsOf(nodes, i) {
      assert Body(nodes, []).nodes[i].deps == DepsOf(Body(nodes, []).nodes, i);
    }
  }

  /** No node retries, so the surrounding body does not matter. */
  lemma MarksKeepNodes(nodes: seq<Node>, waves: seq<seq<NodeId>>)
    requires NestedReady(nodes)
    ensures SameNodes(Body(nodes, waves), Optimized(nodes))
  {
    hide KindVars, BodyVars, Uses, DepsOf;
    BindsSame(nodes);
    hide WithLive;
    forall i: nat | i < |nodes| ensures NoRetry(nodes[i].kind) {
      assert nodes[i] in nodes;
      ReadyDoesNotRetry(nodes[i].kind);
    }
  }

  lemma ReadyDoesNotRetry(k: NodeKind)
    requires ReadyKind(k)
    ensures NoRetry(k)
  {
    hide KindVars, BodyVars, Uses, DepsOf;
  }

  /** Liveness, scheduling and concurrent execution together: the waves of the optimized nodes cannot be
      told apart from running the nodes in their written order, and agree on every live binding. */
  lemma ScheduleMeansTheSame(p: Prog, fuel: nat, nodes: seq<Node>, waves: seq<seq<NodeId>>, env: Env,
      hist: seq<Request>)
    requires hide *; ReadyProg(p) && SoundNodes(nodes) && NestedReady(nodes)
    requires RunBody(p, InOrder, fuel, Body(nodes, waves), env, hist).ctl != Fail(true)
    requires RunBody(p, Waves, fuel, Optimized(nodes), env, hist).ctl != Fail(true)
    ensures var r, s := RunBody(p, InOrder, fuel, Body(nodes, waves), env, hist),
                        RunBody(p, Waves, fuel, Optimized(nodes), env, hist);
            && s.ctl == r.ctl && Observe(s.evs) == Observe(r.evs)
            && (r.ctl.Next? ==>
                  forall i: nat, x: string
                    | i < |nodes| && IsLive(nodes, i) && x in BindSet(nodes[i]) ::
                    Lookup(s.env, x) == Lookup(r.env, x))
  {
    hide RunOrder, RunWaves, RunNode, RunLoop, RunMatch, RunTail, NodeStep, RoundStep, LaunchTo, FetchOne, Prepare,
      EvalPath, Eval, ApplyPipeline, KindVars, BodyVars, Uses, DepsOf;
    var b := Optimized(nodes);
    MarksKeepNodes(nodes, waves);
    InOrderIgnoresMarks(p, fuel, Body(nodes, waves), b, env, hist);
    OptimizedIsReady(nodes);
    hide RunBody, Ready;
    WavesRefineProgramOrder(p, fuel, b, env, hist);
    var r, s := RunBody(p, InOrder, fuel, Body(nodes, waves), env, hist), RunBody(p, Waves, fuel, b, env, hist);
    if r.ctl.Next? {
      forall i: nat, x: string | i < |nodes| && IsLive(nodes, i) && x in BindSet(nodes[i])
          ensures Lookup(s.env, x) == Lookup(r.env, x) {
        LiveIsScheduled(nodes, i);
        assert x in BindSet(b.nodes[i]);
      }
    }
  }

  lemma LiveIsScheduled(nodes: seq<Node>, i: nat)
    requires i < |nodes| && IsLive(nodes, i)
    ensures InWaves(Optimized(nodes), |Optimized(nodes).waves|, i)
  {
    var ns := WithLive(nodes);
    WavesExact(ns);
    assert ns[i].live;
    assert i in Optimized(nodes).waves[Level(ns, i)];
  }
}
