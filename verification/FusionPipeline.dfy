/** Static fusion followed by scheduling. */
module FusionPipeline {
  import opened Evaluator
  import opened Ir
  import opened Exec
  import opened Readiness
  import opened Traces
  import opened ReferenceRun
  import opened Schedule
  import opened Fusion
  import opened FusionMeaning
  import opened FusionRun
  import opened FusionSound
  import opened Pipeline

  lemma FusedNested(b: Body)
    requires Fit(b) && Groups(b.nodes) != [] && NestedReady(b.nodes)
    ensures NestedReady(FuseNodes(b.nodes))
  {
    hide KindVars, BodyVars, Uses, KeyOf;
    var os, out := Origins(b.nodes, |b.nodes|), FuseNodes(b.nodes);
    FusedSpread(b);
    hide Fit, Origins, Groups;
    forall n | n in out ensures ReadyKind(n.kind) {
      var q: nat :| q < |out| && out[q] == n;
      assert Shows(n, b.nodes, os[q], q);
      if os[q].Original? { assert b.nodes[os[q].i] in b.nodes; }
    }
  }

  /** Fused and scheduled, a body behaves as its statements were written: same lines, same mutations in
      the same order, same outcome, and the same values of live bindings. */
  lemma FusedScheduleMeansTheSame(c: Setup, s: nat)
    requires hide *;
             ReadyProg(c.p) && Fit(c.b) && Served(c) && Groups(c.b.nodes) != [] && NestedReady(c.b.nodes) && c.Stops(s)
    requires RunBody(c.p, Waves, c.fuel, Optimized(FuseNodes(c.b.nodes)), c.ea, c.hist).ctl != Fail(true)
    ensures var r, w := RunBody(c.p, InOrder, c.fuel, c.b, c.ea, c.hist),
                        RunBody(c.p, Waves, c.fuel, Optimized(FuseNodes(c.b.nodes)), c.ea, c.hist);
            && w.ctl == r.ctl && Observe(w.evs) == Observe(r.evs)
            && (r.ctl.Next? ==>
                  forall q: nat, x: string
                    | q < |FuseNodes(c.b.nodes)| && IsLive(FuseNodes(c.b.nodes), q)
                      && x in BindSet(FuseNodes(c.b.nodes)[q]) && x !in BatchNames(c.b.nodes) ::
                    Lookup(w.env, x) == Lookup(r.env, x))
  {
    hide RunOrder, RunWaves, RunNode, RunLoop, RunMatch, RunTail, NodeStep, RoundStep, LaunchTo, FetchOne, Prepare,
      EvalPath, Eval, ApplyPipeline, KindVars, BodyVars, Uses, KeyOf;
    StopsQuietly(c, s);
    hide RunBody, Served, Fit, FuseNodes, Groups, IsLive;
    FitIsReady(c.b);
    FusionPreserves(c, s);
    FusionIsSound(c.b);
    FusedNested(c.b);
    ScheduleMeansTheSame(c.p, c.fuel, FuseNodes(c.b.nodes), c.b.waves, c.ea, c.hist);
  }

  lemma FitIsReady(b: Body)
    requires Fit(b)
    ensures FuseReady(b)
  {
    hide KindVars, BodyVars, Uses, KeyOf, Groups;
  }

  lemma StopsQuietly(c: Setup, s: nat)
    requires c.Stops(s)
    ensures RunBody(c.p, InOrder, c.fuel, c.b, c.ea, c.hist).ctl != Fail(true)
  {
    hide RunNode, RunLoop, RunMatch, LaunchTo, FetchOne, Prepare, Eval, ApplyPipeline, KeyOf, Groups;
    assert c.At(|c.b.nodes|) == RunBody(c.p, InOrder, c.fuel, c.b, c.ea, c.hist);
  }
}
