/** Deduplication followed by scheduling. */
module DedupPipeline {
  import opened Wrappers
  import opened Evaluator
  import opened Ir
  import opened Exec
  import opened Quiet
  import opened Dependencies
  import opened Readiness
  import opened Traces
  import opened Schedule
  import opened Pipeline
  import opened Dedup

  ghost predicate Merging(b: Body) {
    Sound(b) && DedupReady(b)
  }

  /** What stands at `i` after the pass. */
  lemma DedupAt(b: Body, i: nat)
    requires hide *; Merging(b) && i < |b.nodes|
    ensures var n, m := b.nodes[i], DedupNodes(b.nodes)[i];
            && m.binding == n.binding && m.effect == n.effect && m.id == n.id
            && (Original(b.nodes, i).None? ==> m == n)
            && (Original(b.nodes, i).Some? ==>
                  var j := Original(b.nodes, i).value;
                  j < i && m == Alias(n, j, BindingOf(b.nodes[j])) && b.nodes[j].binding == Some(BindingOf(b.nodes[j]))
                  && b.nodes[j].kind.FetchN? && !n.effect)
  {
    hide KindVars, BodyVars, Uses, DepsOf, FetchSig;
    if Original(b.nodes, i).Some? { MergedPair(b, i); }
  }

  lemma SameBinds(b: Body)
    requires Merging(b)
    ensures Binds(DedupNodes(b.nodes)) == Binds(b.nodes)
  {
    hide KindVars, BodyVars, Uses, DepsOf, Merging, Original;
    var d := DedupNodes(b.nodes);
    forall i: nat | i < |b.nodes| ensures d[i].binding == b.nodes[i].binding { DedupAt(b, i); }
    hide DedupNodes;
    forall x | x in Binds(b.nodes) ensures x in Binds(d) {
      var n :| n in b.nodes && n.binding.Some? && n.binding.value == x;
      var i: nat :| i < |b.nodes| && b.nodes[i] == n;
      assert d[i] in d;
    }
    forall x | x in Binds(d) ensures x in Binds(b.nodes) {
      var n :| n in d && n.binding.Some? && n.binding.value == x;
      var i: nat :| i < |d| && d[i] == n;
      assert b.nodes[i] in b.nodes;
    }
  }

  /** The alias reads only the first binding, which nothing rebinds. */
  lemma {:induction false} WriterKept(b: Body, j: nat, i: nat)
    requires hide *; Merging(b) && j < i <= |b.nodes| && b.nodes[j].binding == Some(BindingOf(b.nodes[j]))
    ensures LastWriter(DedupNodes(b.nodes), i, BindingOf(b.nodes[j])) == Some(j)
  {
    hide *;
    DedupAt(b, i - 1);
    if j < i - 1 {
      WriterKept(b, j, i - 1);
      BoundElsewhere(b, j, i - 1);
    }
  }

  lemma BoundElsewhere(b: Body, j: nat, i: nat)
    requires hide *; Merging(b) && j < i < |b.nodes| && b.nodes[j].binding.Some?
    ensures b.nodes[i].binding != b.nodes[j].binding
  {
    hide KindVars, BodyVars, Uses, DepsOf, Original, DedupReady;
    assert BindSet(b.nodes[j]) !! BindSet(b.nodes[i]);
  }

  lemma {:induction false} SameWriters(b: Body, i: nat, x: string)
    requires hide *; Merging(b) && i <= |b.nodes|
    ensures LastWriter(DedupNodes(b.nodes), i, x) == LastWriter(b.nodes, i, x)
    ensures LastEffect(DedupNodes(b.nodes), i) == LastEffect(b.nodes, i)
  {
    hide KindVars, BodyVars, Uses, DepsOf, Alias, Merging, Original;
    if i > 0 {
      SameWriters(b, i - 1, x);
      DedupAt(b, i - 1);
    }
  }

  lemma DepsKept(b: Body, i: nat)
    requires hide *; Merging(b) && i < |b.nodes|
    ensures DedupNodes(b.nodes)[i].deps == DepsOf(DedupNodes(b.nodes), i)
  {
    hide Original;
    var d := DedupNodes(b.nodes);
    DedupAt(b, i);
    if Original(b.nodes, i).Some? {
      var j := Original(b.nodes, i).value;
      WriterKept(b, j, i);
      assert DepsOf(d, i) == {j};
    } else {
      forall x ensures LastWriter(d, i, x) == LastWriter(b.nodes, i, x) { SameWriters(b, i, x); }
      SameWriters(b, i, "");
      assert DepsOf(d, i) == DepsOf(b.nodes, i);
      SoundDeps(b, i);
    }
  }

  lemma SoundDeps(b: Body, i: nat)
    requires hide *; Sound(b) && i < |b.nodes|
    ensures b.nodes[i].deps == DepsOf(b.nodes, i) && b.nodes[i].effect == IsEffect(b.nodes[i].kind)
    ensures b.nodes[i].id == i && (b.nodes[i].binding.Some? ==> MayBind(b.nodes[i].kind))
    ensures Uses(b, i) * Binds(b.nodes) <= b.nodes[i].inputs && (!b.nodes[i].effect ==> QuietKind(b.nodes[i].kind))
  {
    hide KindVars, BodyVars, Uses, DepsOf;
  }

  ghost function DedupedBody(b: Body): Body { Body(DedupNodes(b.nodes), []) }

  /** What a node reads after the pass: as before, or just the first binding. */
  lemma ReadsAfter(b: Body, i: nat)
    requires hide Uses; Merging(b) && i < |b.nodes|
    ensures Original(b.nodes, i).None? ==> Uses(DedupedBody(b), i) == Uses(b, i)
    ensures Original(b.nodes, i).Some? ==> Uses(DedupedBody(b), i) == {BindingOf(b.nodes[Original(b.nodes, i).value])}
    ensures Leaks(DedupedBody(b).nodes[i].kind) == if Original(b.nodes, i).None? then Leaks(b.nodes[i].kind) else {}
  {
    hide DepsOf, Merging, Original;
    DedupAt(b, i);
  }

  lemma DedupRecorded(b: Body)
    requires Merging(b)
    ensures Recorded(DedupedBody(b)) && SilentNodesQuiet(DedupedBody(b))
  {
    hide KindVars, BodyVars, Uses;
    SameBinds(b);
    hide Original, DepsOf;
    forall i: nat | i < |b.nodes|
      ensures var n := DedupNodes(b.nodes)[i];
              && n.id == i && n.effect == IsEffect(n.kind) && (n.binding.Some? ==> MayBind(n.kind))
              && n.deps == DepsOf(DedupNodes(b.nodes), i)
                 && Uses(DedupedBody(b), i) * Binds(DedupNodes(b.nodes)) <= n.inputs
              && (!n.effect ==> QuietKind(n.kind))
    {
      DedupAt(b, i);
      DepsKept(b, i);
      SoundDeps(b, i);
      ReadsAfter(b, i);
    }
  }

  lemma DedupSingle(b: Body)
    requires Merging(b)
    ensures SingleAssignment(DedupedBody(b))
  {
    hide KindVars, BodyVars, Uses, DepsOf;
    var d := DedupedBody(b);
    forall i: nat, j: nat | i < j < |d.nodes| ensures BindSet(d.nodes[i]) !! BindSet(d.nodes[j]) {
      DedupAt(b, i);
      DedupAt(b, j);
    }
    hide Original;
    forall i: nat, j: nat | i <= j < |d.nodes| ensures Uses(d, i) !! BindSet(d.nodes[j]) {
      DedupAt(b, i);
      DedupAt(b, j);
      ReadsAfter(b, i);
      if Original(b.nodes, i).Some? {
        BoundElsewhere(b, Original(b.nodes, i).value, j);
      } else {
        assert Uses(b, i) !! BindSet(b.nodes[j]);
      }
    }
  }

  lemma DedupLeaks(b: Body)
    requires Merging(b)
    ensures ScopedLeaks(DedupedBody(b))
  {
    hide KindVars, BodyVars, Uses, DepsOf, Original;
    var d := DedupedBody(b);
    forall i: nat, j: nat | i < |d.nodes| && j < |d.nodes| && i != j
      ensures Leaks(d.nodes[i].kind) !! Uses(d, j) + BindSet(d.nodes[j])
    {
      DedupAt(b, i);
      DedupAt(b, j);
      ReadsAfter(b, i);
      ReadsAfter(b, j);
      assert Leaks(b.nodes[i].kind) !! Uses(b, j) + BindSet(b.nodes[j]);
      if Original(b.nodes, j).Some? {
        var k := Original(b.nodes, j).value;
        if i != k { assert Leaks(b.nodes[i].kind) !! Uses(b, k) + BindSet(b.nodes[k]); }
      }
    }
  }

  /** Deduplication keeps recorded reads and edges, single assignment, scoped leaks and quietness. */
  lemma DedupIsSound(b: Body)
    requires Merging(b)
    ensures SoundNodes(DedupNodes(b.nodes))
  {
    hide KindVars, BodyVars, Uses, DepsOf;
    DedupRecorded(b);
    DedupSingle(b);
    DedupLeaks(b);
  }

  lemma DedupNested(b: Body)
    requires Merging(b) && NestedReady(b.nodes)
    ensures NestedReady(DedupNodes(b.nodes))
  {
    hide KindVars, BodyVars, Uses, DepsOf;
    var d := DedupNodes(b.nodes);
    forall n | n in d ensures ReadyKind(n.kind) {
      var i: nat :| i < |d| && d[i] == n;
      DedupAt(b, i);
      assert b.nodes[i] in b.nodes;
    }
  }

  /** A deduplicated, scheduled body behaves as its statements were written; in program order it never hits
      the network more often. */
  lemma DedupedScheduleMeansTheSame(p: Prog, fuel: nat, b: Body, env: Env, hist: seq<Request>)
    requires hide *; ReadyProg(p) && Merging(b) && NestedReady(b.nodes)
    requires RunBody(p, InOrder, fuel, b, env, hist).ctl != Fail(true)
    requires RunBody(p, Waves, fuel, Optimized(DedupNodes(b.nodes)), env, hist).ctl != Fail(true)
    ensures var r, s := RunBody(p, InOrder, fuel, b, env, hist),
                        RunBody(p, Waves, fuel, Optimized(DedupNodes(b.nodes)), env, hist);
            && s.ctl == r.ctl && Observe(s.evs) == Observe(r.evs)
            && (r.ctl.Next? ==>
                  forall i: nat, x: string
                    | i < |b.nodes| && IsLive(DedupNodes(b.nodes), i) && x in BindSet(b.nodes[i]) ::
                    Lookup(s.env, x) == Lookup(r.env, x))
    ensures Sends(RunBody(p, InOrder, fuel, Body(DedupNodes(b.nodes), b.waves), env, hist).evs)
            <= Sends(RunBody(p, InOrder, fuel, b, env, hist).evs)
  {
    hide RunOrder, RunWaves, RunNode, RunLoop, RunMatch, RunTail, NodeStep, RoundStep, LaunchTo, FetchOne, Prepare,
      EvalPath, Eval, ApplyPipeline, KindVars, BodyVars, Uses, DepsOf, RunBody;
    DedupPreserves(p, fuel, b, env, hist);
    DedupIsSound(b);
    DedupNested(b);
    ScheduleMeansTheSame(p, fuel, DedupNodes(b.nodes), b.waves, env, hist);
    forall i: nat | i < |b.nodes| ensures BindSet(DedupNodes(b.nodes)[i]) == BindSet(b.nodes[i]) { DedupAt(b, i); }
  }
}
