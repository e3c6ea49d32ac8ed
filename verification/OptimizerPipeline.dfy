/** All passes over a body put together, in the order in which the optimizer runs them: what the executor
    does with the result, against the statements as they were written. */
module OptimizerPipeline {
  import opened Wrappers
  import opened Evaluator
  import opened Ir
  import opened Exec
  import opened Quiet
  import opened Dependencies
  import opened Readiness
  import opened Traces
  import opened ReferenceRun
  import opened Schedule
  import opened FreshNames
  import opened Pipeline
  import Dedup
  import opened DedupPipeline
  import Fusion
  import FusionMeaning
  import FusionRun
  import FusionSound
  import opened LoopFusion
  import LoopFusionBody
  import LoopFusionRun
  import LoopFusionPass
  import LoopFusionSound
  import opened Compile

  // ---------- nested bodies ----------

  /** Every nested body of `after` is one of `before`. */
  ghost predicate NestedFrom(before: seq<Node>, after: seq<Node>) {
    forall n | n in after :: (!n.kind.MatchN? && !n.kind.ForEachN?) || exists o :: o in before && o.kind == n.kind
  }

  lemma NestedStaySound(before: seq<Node>, after: seq<Node>)
    requires NestedFrom(before, after) && forall n | n in before :: DeepSoundKind(n.kind)
    ensures forall n | n in after :: DeepSoundKind(n.kind)
  {
    hide KindVars, BodyVars, Uses, Fusion.KeyOf, Fusion.Groups, DepsOf;
    forall n | n in after ensures DeepSoundKind(n.kind) {
      if n.kind.MatchN? || n.kind.ForEachN? { var o :| o in before && o.kind == n.kind; }
    }
  }

  lemma SoundIgnoresWaves(a: Body, b: Body)
    requires a.nodes == b.nodes && Sound(a)
    ensures Sound(b)
  {
    hide KindVars, BodyVars, Fusion.KeyOf, Fusion.Groups, HoistedLoop;
    forall i: nat | i < |a.nodes| ensures Uses(a, i) == Uses(b, i) {}
    hide Uses, Leaks, BindSet, DepsOf, QuietKind, IsEffect, MayBind, Binds;
  }

  // ---------- loop fusion ----------

  lemma LoopBodyStaysDeep(b: Body, s: nat, i: nat)
    requires hide *;
             LoopFusionSound.LoopsFit(b, s) && i < |b.nodes| && FusesLoop(b.nodes[i]) && DeepSoundKind(b.nodes[i].kind)
    ensures b.nodes[i].kind.ForEachN?
            && DeepSoundKind(ForEachN(HoistedLoop(b.nodes[i].kind.fe, NextName(b.nodes, i, s))))
  {
    hide *;
    LoopFusionSound.LoopKnown(b, s, i);
    var fe, from := b.nodes[i].kind.fe, NextName(b.nodes, i, s);
    HoistedDeep(fe, from);
  }

  lemma HoistedDeep(fe: ForEachIr, s: nat)
    requires LoopFusionBody.LoopFit(fe) && LoopFusionSound.Strange(fe, s) && DeepSoundKind(ForEachN(fe))
    ensures DeepSoundKind(ForEachN(HoistedLoop(fe, s)))
  {
    hide KindVars, Uses, Fusion.KeyOf, Fusion.Groups, DepsOf;
    var h := HoistedLoop(fe, s);
    SoundIgnoresWaves(Body(fe.body.nodes, []), fe.body);
    LoopFusionSound.HoistedIsSound(fe, s);
    LoopFusionSound.HoistedCarriesNothing(fe, s);
    SoundIgnoresWaves(h.body, Body(h.body.nodes, []));
    InnerNested(fe, s);
    NestedStaySound(fe.body.nodes, h.body.nodes);
    hide Sound, HoistedLoop, LoopFusionBody.LoopFit, LoopFusionSound.Strange, BodyWrites, BodyVars;
  }

  lemma InnerNested(fe: ForEachIr, s: nat)
    ensures NestedFrom(fe.body.nodes, HoistedLoop(fe, s).body.nodes)
  {
    hide Fusion.KeyOf, Fusion.Groups, DepsOf, HoistedLoop;
    var h := HoistedLoop(fe, s);
    LoopFusionSound.BodyShapes(fe, s);
    forall n | n in h.body.nodes ensures (!n.kind.MatchN? && !n.kind.ForEachN?) ||
        exists o ::
          o in fe.body.nodes
          && o.kind == n.kind {
      var j: nat :| j < |h.body.nodes| && h.body.nodes[j] == n;
      LoopFusionSound.InnerIs(fe, s, j);
      assert fe.body.nodes[j] in fe.body.nodes;
    }
  }

  lemma LoopsStayDeep(b: Body, s: nat)
    requires LoopFusionSound.LoopsFit(b, s) && DeepSound(b) && exists n :: n in b.nodes && FusesLoop(n)
    ensures DeepSound(Body(FuseLoops(b.nodes, s), b.waves))
  {
    hide KindVars, BodyVars, Uses, Fusion.KeyOf, Fusion.Groups, DepsOf, HoistedLoop, DeepSoundKind, Sound;
    LoopFusionSound.LoopFusionIsSound(b, s);
    assert SoundNodes(FuseLoops(b.nodes, s));
    LoopFusionSound.FusedSpread(b, s);
    hide LoopFusionSound.Made, LoopFusionSound.Genuine;
    var os, out := LoopFusionSound.Sources(b.nodes, |b.nodes|), FuseLoops(b.nodes, s);
    hide FuseLoops, FusesLoop, LoopFusionSound.LoopsFit, LoopFusionSound.Sources, SoundNodes;
    forall n | n in out ensures DeepSoundKind(n.kind) {
      var q: nat :| q < |out| && out[q] == n;
      LoopFusionSound.SpreadAt(b, s, os, q, q);
      SourceDeep(b, s, os[q]);
    }
  }

  lemma SourceDeep(b: Body, s: nat, o: LoopFusionSound.Source)
    requires hide *; LoopFusionSound.LoopsFit(b, s) && LoopFusionSound.Genuine(b.nodes, o)
             && forall n | n in b.nodes :: DeepSoundKind(n.kind)
    ensures DeepSoundKind(LoopFusionSound.Made(b.nodes, s, o).kind)
  {
    hide RunBody, RunOrder, RunWaves, RunNode, RunLoop, RunMatch, RunTail, NodeStep, RoundStep, LaunchTo, FetchOne,
      Prepare, EvalPath, Eval, ApplyPipeline, KindVars, BodyVars, Uses, Fusion.KeyOf, Fusion.Groups, DepsOf,
      LoopFusionSound.LoopsFit, DeepSoundKind;
    if o.Kept? {
      assert b.nodes[o.i] in b.nodes;
      if FusesLoop(b.nodes[o.i]) {
        LoopBodyStaysDeep(b, s, o.i);
        hide HoistedLoop, NextName;
      }
    } else {
      FetchIsDeep(LoopFusionSound.Made(b.nodes, s, o).kind);
    }
  }

  lemma FetchIsDeep(k: NodeKind)
    ensures k.FetchN? ==> DeepSoundKind(k)
  {
    hide KindVars, BodyVars, Uses, Fusion.KeyOf, Fusion.Groups, DepsOf;
  }

  // ---------- deduplication and static fusion ----------

  lemma DedupStaysDeep(b: Body)
    requires Merging(b) && DeepSound(b)
    ensures DeepSound(Body(Dedup.DedupNodes(b.nodes), b.waves))
  {
    hide KindVars, BodyVars, Uses, Fusion.KeyOf, Fusion.Groups, DepsOf;
    var d := Dedup.DedupNodes(b.nodes);
    DedupIsSound(b);
    forall n | n in d ensures (!n.kind.MatchN? && !n.kind.ForEachN?) || exists o :: o in b.nodes && o.kind == n.kind {
      var i: nat :| i < |d| && d[i] == n;
      DedupAt(b, i);
      assert b.nodes[i] in b.nodes;
    }
    hide Merging, SoundNodes, Dedup.DedupNodes;
    NestedStaySound(b.nodes, d);
  }

  lemma FusedStaysDeep(b: Body)
    requires FusionSound.Fit(b) && DeepSound(b) && Fusion.Groups(b.nodes) != []
    ensures DeepSound(Body(Fusion.FuseNodes(b.nodes), b.waves))
  {
    hide KindVars, BodyVars, Uses, Fusion.KeyOf, DepsOf, HoistedLoop, Fusion.Batchable, Fusion.GroupAt;
    var os, out := FusionSound.Origins(b.nodes, |b.nodes|), Fusion.FuseNodes(b.nodes);
    hide Sound;
    FusionSound.FusionIsSound(b);
    assert SoundNodes(out);
    FusionSound.FusedSpread(b);
    hide FusionSound.Fit, FusionSound.Origins, Fusion.Groups, Fusion.FuseNodes, SoundNodes;
    forall n | n in out ensures (!n.kind.MatchN? && !n.kind.ForEachN?) || exists o :: o in b.nodes && o.kind == n.kind {
      var q: nat :| q < |out| && out[q] == n;
      assert FusionSound.Shows(n, b.nodes, os[q], q);
      if os[q].Original? { assert b.nodes[os[q].i] in b.nodes; }
    }
    NestedStaySound(b.nodes, out);
  }

  // ---------- the passes one after the other ----------

  function Hoisted(b: Body, s: nat): Body { Body(FuseLoops(b.nodes, s), b.waves) }

  function Merged(b: Body): Body { Body(Dedup.DedupNodes(b.nodes), b.waves) }

  function Batched(b: Body): Body { Body(Fusion.FuseNodes(b.nodes), b.waves) }

  /** The three rewrites, in the optimizer's order. */
  function Rewritten(b: Body, s: nat): Body { Batched(Merged(Hoisted(b, s))) }

  predicate HasLoops(b: Body) { exists n | n in b.nodes :: FusesLoop(n) }

  predicate HasDuplicates(b: Body) { hide *; exists i | 0 <= i < |b.nodes| :: Dedup.Original(b.nodes, i).Some? }

  predicate HasGroups(b: Body) { Fusion.Groups(b.nodes) != [] }

  /** What each rewrite asks of the body it meets, where it has anything to do. */
  ghost predicate Rewritable(c: Setup, s: nat) {
    && (HasLoops(c.b) ==> LoopFusionSound.LoopsFit(c.b, s) && LoopFusionRun.LoopsServed(c))
    && (HasDuplicates(Hoisted(c.b, s)) ==> Merging(Hoisted(c.b, s)))
    && var m := Merged(Hoisted(c.b, s));
       HasGroups(m) ==> FusionSound.Fit(m) && FusionRun.Served(c.(b := m))
  }

  /** The names that the rewrites give to their batches. */
  ghost function GivenNames(b: Body, s: nat): set<string> {
    (if HasLoops(b) then LoopFusionRun.AllNames(b.nodes, s) else {})
        + FusionMeaning.BatchNames(Merged(Hoisted(b, s)).nodes)
  }

  /** Same ending and observed alike, but for some names; not more requests than `r` and `extra` together. */
  ghost predicate Carried(r: Run, t: Run, f: set<string>, extra: nat) {
    t.ctl == r.ctl && Observe(t.evs) == Observe(r.evs) && SameBut(r.env, t.env, f)
        && Sends(t.evs) <= Sends(r.evs) + extra
  }

  lemma CarriedOn(r: Run, t: Run, u: Run, f: set<string>, g: set<string>, extra: nat)
    requires hide *; Carried(r, t, f, extra) && Carried(t, u, g, 0)
    ensures Carried(r, u, f + g, extra)
  {
  }

  lemma CarriedSelf(r: Run)
    ensures hide *; Carried(r, r, {}, 0)
  {
  }

  /** The batches that loop fusion sends. */
  ghost function LoopBatchesSent(c: Setup): nat {
    hide *;
    if HasLoops(c.b) then LoopFusionPass.BatchesTo(c, |c.b.nodes|) else 0
  }

  lemma HoistStep(c: Setup, s: nat)
    requires DeepSound(c.b) && (HasLoops(c.b) ==> LoopFusionSound.LoopsFit(c.b, s) && LoopFusionRun.LoopsServed(c))
    requires RunBody(c.p, InOrder, c.fuel, c.b, c.ea, c.hist).ctl != Fail(true)
    ensures DeepSound(Hoisted(c.b, s))
    ensures Carried(RunBody(c.p, InOrder, c.fuel, c.b, c.ea, c.hist),
                    RunBody(c.p, InOrder, c.fuel, Hoisted(c.b, s), c.ea, c.hist),
                    if HasLoops(c.b) then LoopFusionRun.AllNames(c.b.nodes, s) else {}, LoopBatchesSent(c))
  {
    hide RunOrder, RunWaves, RunNode, RunLoop, RunMatch, RunTail, NodeStep, RoundStep, LaunchTo, FetchOne, Prepare,
      EvalPath, Eval, ApplyPipeline, KindVars, BodyVars, Uses, Fusion.KeyOf, Fusion.Groups, DepsOf, HoistedLoop,
      RunBody, FusesLoop;
    if HasLoops(c.b) {
      LoopsStayDeep(c.b, s);
      hide DeepSound, LoopFusionRun.LoopsServed;
      var q := LoopFusionPass.Pair(c, s);
      var saved := LoopFusionPass.LoopFusionPreserves(q);
    } else {
      assert FuseLoops(c.b.nodes, s) == c.b.nodes;
      CarriedSelf(RunBody(c.p, InOrder, c.fuel, c.b, c.ea, c.hist));
    }
  }

  lemma MergeStep(c: Setup)
    requires hide *; DeepSound(c.b) && (HasDuplicates(c.b) ==> Merging(c.b))
    requires RunBody(c.p, InOrder, c.fuel, c.b, c.ea, c.hist).ctl != Fail(true)
    ensures DeepSound(Merged(c.b))
    ensures Carried(RunBody(c.p, InOrder, c.fuel, c.b, c.ea, c.hist),
                    RunBody(c.p, InOrder, c.fuel, Merged(c.b), c.ea, c.hist), {}, 0)
  {
    hide RunOrder, RunWaves, RunNode, RunLoop, RunMatch, RunTail, NodeStep, RoundStep, LaunchTo, FetchOne, Prepare,
      EvalPath, Eval, ApplyPipeline, KindVars, BodyVars, Uses, Fusion.KeyOf, Fusion.Groups, DepsOf, HoistedLoop,
      RunBody, Dedup.Original;
    if HasDuplicates(c.b) {
      DedupStaysDeep(c.b);
      hide DeepSound;
      Dedup.DedupPreserves(c.p, c.fuel, c.b, c.ea, c.hist);
    } else {
      assert Dedup.DedupNodes(c.b.nodes) == c.b.nodes;
      CarriedSelf(RunBody(c.p, InOrder, c.fuel, c.b, c.ea, c.hist));
    }
  }

  lemma BatchStep(c: Setup)
    requires hide *; DeepSound(c.b) && (HasGroups(c.b) ==> FusionSound.Fit(c.b) && FusionRun.Served(c))
    requires RunBody(c.p, InOrder, c.fuel, c.b, c.ea, c.hist).ctl != Fail(true)
    ensures DeepSound(Batched(c.b))
    ensures Carried(RunBody(c.p, InOrder, c.fuel, c.b, c.ea, c.hist),
                    RunBody(c.p, InOrder, c.fuel, Batched(c.b), c.ea, c.hist),
                    FusionMeaning.BatchNames(c.b.nodes), 0)
  {
    hide RunWaves, RunNode, RunLoop, RunMatch, RunTail, NodeStep, RoundStep, LaunchTo, FetchOne, Prepare, EvalPath,
      Eval, ApplyPipeline, KindVars, BodyVars, Uses, Fusion.KeyOf, DepsOf, HoistedLoop, Fusion.Groups;
    if HasGroups(c.b) {
      FusedStaysDeep(c.b);
      hide DeepSound;
      assert c.At(|c.b.nodes|) == RunBody(c.p, InOrder, c.fuel, c.b, c.ea, c.hist);
      hide RunBody;
      assert c.At(0).ctl.Next?;
      hide RunOrder;
      var t := StopPoint(c, 0);
      FusionRun.FusionPreserves(c, t);
    } else {
      hide RunBody;
      CarriedSelf(RunBody(c.p, InOrder, c.fuel, c.b, c.ea, c.hist));
    }
  }

  /** The three rewrites keep outcome, lines, mutations and bindings, and add no more requests than the
      batches hoisted out of loops. */
  lemma RewritesPreserve(c: Setup, s: nat)
    requires DeepSound(c.b) && Rewritable(c, s)
    requires RunBody(c.p, InOrder, c.fuel, c.b, c.ea, c.hist).ctl != Fail(true)
    ensures DeepSound(Rewritten(c.b, s))
    ensures Carried(RunBody(c.p, InOrder, c.fuel, c.b, c.ea, c.hist),
                    RunBody(c.p, InOrder, c.fuel, Rewritten(c.b, s), c.ea, c.hist),
                    GivenNames(c.b, s), LoopBatchesSent(c))
  {
    hide RunOrder, RunWaves, RunNode, RunLoop, RunMatch, RunTail, NodeStep, RoundStep, LaunchTo, FetchOne, Prepare,
      EvalPath, Eval, ApplyPipeline, KindVars, BodyVars, Uses, Fusion.KeyOf, Fusion.Groups, DepsOf, HoistedLoop,
      FusionSound.Fit, Setup.At, Merging, Dedup.DedupReady, LoopFusionSound.LoopsFit, RunBody, DeepSound, HasLoops,
      HasDuplicates, HasGroups, LoopBatchesSent, Hoisted, Merged, Batched;
    var h := Hoisted(c.b, s);
    var m := Merged(h);
    HoistStep(c, s);
    MergeStep(c.(b := h));
    BatchStep(c.(b := m));
    var r, t, u, v := RunBody(c.p, InOrder, c.fuel, c.b, c.ea, c.hist), RunBody(c.p, InOrder, c.fuel, h, c.ea, c.hist),
                      RunBody(c.p, InOrder, c.fuel, m, c.ea, c.hist),
                          RunBody(c.p, InOrder, c.fuel, Batched(m), c.ea, c.hist);
    var f := if HasLoops(c.b) then LoopFusionRun.AllNames(c.b.nodes, s) else {};
    CarriedOn(r, t, u, f, {}, LoopBatchesSent(c));
    assert f + {} == f;
    CarriedOn(r, u, v, f, FusionMeaning.BatchNames(m.nodes), LoopBatchesSent(c));
  }

  /** The whole optimizer against the statements as written: rewritten, marked and scheduled at every level,
      a body ends as it did, prints the same lines, sends the same mutations in the same order, and gives
      every live binding but those of its batches the value it had. */
  lemma OptimizerMeansTheSame(c: Setup, s: nat)
    requires ReadyProg(c.p) && DeepSound(c.b) && Rewritable(c, s)
    requires RunBody(c.p, InOrder, c.fuel, c.b, c.ea, c.hist).ctl != Fail(true)
    requires RunBody(c.p, Waves, c.fuel, Compiled(Rewritten(c.b, s)), c.ea, c.hist).ctl != Fail(true)
    ensures var r, w := RunBody(c.p, InOrder, c.fuel, c.b, c.ea, c.hist),
                        RunBody(c.p, Waves, c.fuel, Compiled(Rewritten(c.b, s)), c.ea, c.hist);
            && w.ctl == r.ctl && Observe(w.evs) == Observe(r.evs)
            && (r.ctl.Next? ==>
                  forall q: nat, x: string
                    | Exposed(Rewritten(c.b, s).nodes, q, x) && x !in GivenNames(c.b, s) ::
                    Lookup(w.env, x) == Lookup(r.env, x))
  {
    hide RunOrder, RunWaves, RunNode, RunLoop, RunMatch, RunTail, NodeStep, RoundStep, LaunchTo, FetchOne, Prepare,
      EvalPath, Eval, ApplyPipeline, KindVars, BodyVars, Uses, Fusion.KeyOf, Fusion.Groups, DepsOf, HoistedLoop,
      RunBody, DeepSound, Rewritable, Rewritten, GivenNames;
    RewritesPreserve(c, s);
    CompiledMeansTheSame(c.p, c.fuel, Rewritten(c.b, s), c.ea, c.hist);
  }

  /** Node `q` is live and binds `x`. */
  ghost predicate Exposed(nodes: seq<Node>, q: nat, x: string) {
    q < |nodes| && IsLive(nodes, q) && x in BindSet(nodes[q])
  }

  /** Hoisted out of its loops, marked and scheduled at every level, a body behaves as it was written. */
  lemma LoopFusedScheduleMeansTheSame(c: Setup, s: nat)
    requires ReadyProg(c.p) && DeepSound(c.b) && HasLoops(c.b) && LoopFusionSound.LoopsFit(c.b, s)
             && LoopFusionRun.LoopsServed(c)
    requires RunBody(c.p, InOrder, c.fuel, c.b, c.ea, c.hist).ctl != Fail(true)
    requires RunBody(c.p, Waves, c.fuel, Compiled(Hoisted(c.b, s)), c.ea, c.hist).ctl != Fail(true)
    ensures var r, w := RunBody(c.p, InOrder, c.fuel, c.b, c.ea, c.hist),
                        RunBody(c.p, Waves, c.fuel, Compiled(Hoisted(c.b, s)), c.ea, c.hist);
            && w.ctl == r.ctl && Observe(w.evs) == Observe(r.evs)
            && (r.ctl.Next? ==>
                  forall q: nat, x: string
                    | Exposed(Hoisted(c.b, s).nodes, q, x) && x !in LoopFusionRun.AllNames(c.b.nodes, s) ::
                    Lookup(w.env, x) == Lookup(r.env, x))
  {
    hide RunOrder, RunWaves, RunNode, RunLoop, RunMatch, RunTail, NodeStep, RoundStep, LaunchTo, FetchOne, Prepare,
      EvalPath, Eval, ApplyPipeline, KindVars, BodyVars, Uses, Fusion.KeyOf, Fusion.Groups, DepsOf, HoistedLoop,
      RunBody, DeepSound, Hoisted, LoopFusionSound.LoopsFit, LoopFusionRun.LoopsServed, LoopFusionRun.AllNames;
    HoistStep(c, s);
    CompiledMeansTheSame(c.p, c.fuel, Hoisted(c.b, s), c.ea, c.hist);
  }
}
