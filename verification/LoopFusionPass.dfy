/** The loop-fusion pass over a whole body. */
module LoopFusionPass {
  import opened Wrappers
  import opened Ast
  import opened Values
  import opened Evaluator
  import opened Frames
  import opened Ir
  import opened Exec
  import opened Quiet
  import opened Dependencies
  import opened Traces
  import opened ReferenceRun
  import opened BodyEquality
  import opened FreshNames
  import opened LoopFusion
  import opened LoopFusionBody
  import opened LoopFusionLoop
  import opened LoopFusionRun

  // ---------- where things stand ----------

  function Pos(nodes: seq<Node>, i: nat, s: nat): nat
    requires i <= |nodes|
  {
    hide *;
    |LoopRebuild(nodes, i, s)|
  }

  lemma {:induction false} BatchAtPlace(fe: ForEachIr, k: nat, s: nat, at: nat, j: nat)
    requires hide *; j < k <= |fe.body.nodes| && Hoistable(fe, fe.body.nodes[j])
    ensures PlanCount(fe, j) < |LoopBatches(fe, k, s, at)|
    ensures LoopBatches(fe, k, s, at)[PlanCount(fe, j)] == LoopBatchNode(fe, fe.body.nodes[j], s + PlanCount(fe, j),
            at + PlanCount(fe, j))
  {
    hide Vars, DepsOf, HoistedLoop, PlanCount;
    LoopBatchesSize(fe, k - 1, s, at);
    hide Hoistable, LoopBatchNode;
    if j < k - 1 { BatchAtPlace(fe, k - 1, s, at, j); }
  }

  lemma RebuiltAt(nodes: seq<Node>, i: nat, s: nat, j: nat)
    requires hide *; i < |nodes| && (exists n :: n in nodes && FusesLoop(n))
    requires j < |LoopExpand(nodes[i], NextName(nodes, i, s), Pos(nodes, i, s))|
    ensures Pos(nodes, i + 1, s) == Pos(nodes, i, s) + |LoopExpand(nodes[i], NextName(nodes, i, s),
            Pos(nodes, i, s))| <= |FuseLoops(nodes, s)|
    ensures SameWork(FuseLoops(nodes, s)[Pos(nodes, i, s) + j],
            LoopExpand(nodes[i], NextName(nodes, i, s), Pos(nodes, i, s))[j])
  {
    hide Vars, HoistedLoop, LoopExpand, FusesLoop, NextName;
    PieceAt(nodes, i, s, j);
    hide LoopRebuild, DepsOf;
  }

  /** What node `i` expands to, in the rebuilt list. */
  lemma PieceAt(nodes: seq<Node>, i: nat, s: nat, j: nat)
    requires hide Vars; i < |nodes| && j < |LoopExpand(nodes[i], NextName(nodes, i, s), Pos(nodes, i, s))|
    ensures Pos(nodes, i + 1, s) == Pos(nodes, i, s) + |LoopExpand(nodes[i], NextName(nodes, i, s),
            Pos(nodes, i, s))| <= Pos(nodes, |nodes|, s)
    ensures LoopRebuild(nodes, |nodes|, s)[Pos(nodes, i, s) + j] == LoopExpand(nodes[i], NextName(nodes, i, s),
            Pos(nodes, i, s))[j]
  {
    hide LoopExpand, NextName;
    LoopRebuildPrefix(nodes, i + 1, |nodes|, s);
  }

  /** Loop `i` stands after its batches. */
  ghost predicate LoopPlaced(nodes: seq<Node>, out: seq<Node>, i: nat, s: nat)
    requires i < |nodes| && FusesLoop(nodes[i])
  {
    hide *;
    var fe, from, at := nodes[i].kind.fe, NextName(nodes, i, s), Pos(nodes, i, s);
    && BatchesPlaced(out, fe, from, at) && Pos(nodes, i + 1, s) == at + Plans(fe) + 1 <= |out|
    && DoesWork(out, at + Plans(fe), LoopNode(nodes[i], from, 0))
  }

  lemma LoopIsPlaced(nodes: seq<Node>, i: nat, s: nat)
    requires hide *; i < |nodes| && FusesLoop(nodes[i])
    ensures LoopPlaced(nodes, FuseLoops(nodes, s), i, s)
  {
    hide Vars, DepsOf, HoistedLoop, PlanCount, FuseLoops, LoopRebuild, Hoistable, LoopNode;
    var fe, from, at := nodes[i].kind.fe, NextName(nodes, i, s), Pos(nodes, i, s);
    hide Pos, NextName;
    var n := |fe.body.nodes|;
    assert nodes[i] in nodes;
    LoopBatchesSize(fe, n, from, at);
    LoopExpands(nodes[i], from, at);
    RebuiltAt(nodes, i, s, Plans(fe));
    forall j: nat | j < n && Hoistable(fe, fe.body.nodes[j])
      ensures DoesWork(FuseLoops(nodes, s), at + PlanCount(fe, j),
              LoopBatchNode(fe, fe.body.nodes[j], from + PlanCount(fe, j), 0))
    {
      BatchAtPlace(fe, n, from, at, j);
      RebuiltAt(nodes, i, s, PlanCount(fe, j));
    }
  }

  lemma LoopExpands(n: Node, s: nat, at: nat)
    requires hide Vars; FusesLoop(n)
    ensures var fe := n.kind.fe;
            var bs := LoopBatches(fe, |fe.body.nodes|, s, at);
            && LoopExpand(n, s, at) == bs + [LoopNode(n, s, at + |bs|)] && |bs| == Plans(fe)
            && SameWork(LoopNode(n, s, at + |bs|), LoopNode(n, s, 0))
  {
    hide Vars, DepsOf, HoistedLoop;
    LoopBatchesSize(n.kind.fe, |n.kind.fe.body.nodes|, s, at);
  }

  lemma OtherIsPlaced(nodes: seq<Node>, i: nat, s: nat)
    requires hide *; i < |nodes| && !FusesLoop(nodes[i]) && (exists n :: n in nodes && FusesLoop(n))
    ensures Pos(nodes, i + 1, s) == Pos(nodes, i, s) + 1 && DoesWork(FuseLoops(nodes, s), Pos(nodes, i, s), nodes[i])
  {
    hide Vars, DepsOf, HoistedLoop;
    RebuiltAt(nodes, i, s, 0);
  }

  // ---------- the two runs ----------

  /** In step: `saved` requests fewer and `extra` batches more. */
  ghost predicate Together(r: Run, t: Run, saved: nat, extra: nat, f: set<string>) {
    t.ctl == r.ctl && SameBut(r.env, t.env, f) && Observe(t.evs) == Observe(r.evs)
    && Sends(t.evs) + saved == Sends(r.evs) + extra
  }

  lemma TogetherHistory(r: Run, t: Run, saved: nat, extra: nat, f: set<string>)
    requires Together(r, t, saved, extra, f)
    ensures Mutations(t.evs) == Mutations(r.evs)
  {
    SeenAlike(r, t, []);
  }

  lemma BothGrow(r: Run, t: Run, saved: nat, extra: nat, f: set<string>, es: seq<Event>, fs: seq<Event>, more: nat,
      r2: Run, t2: Run)
    requires hide *; Together(r, t, saved, extra, f) && Observe(fs) == Observe(es) && Sends(fs) + more == Sends(es)
    requires r2.evs == r.evs + es && t2.evs == t.evs + fs && t2.ctl == r2.ctl && SameBut(r2.env, t2.env, f)
    ensures Together(r2, t2, saved + more, extra, f)
  {
    ObserveAppend(r.evs, es); ObserveAppend(t.evs, fs);
    SendsAppend(r.evs, es); SendsAppend(t.evs, fs);
  }

  /** The original body and the rewritten one, started alike. */
  datatype Pair = Pair(c: Setup, s: nat) {
    ghost function D(): Body { Body(FuseLoops(c.b.nodes, s), c.b.waves) }

    ghost function F(): set<string> { AllNames(c.b.nodes, s) }

    ghost predicate Valid() {
      LoopsReady(c.b, s) && LoopsServed(c) && exists n :: n in c.b.nodes && FusesLoop(n)
    }

    ghost function Then(k: nat): Run
      requires k <= |D().nodes|
    {
      hide *;
      RunOrder(c.p, c.fuel, D(), k, c.ea, c.hist)
    }
  }

  /** Where node `i` begins, never past the end. */
  ghost function At(q: Pair, i: nat): (k: nat)
    requires i <= |q.c.b.nodes|
    ensures k <= |q.D().nodes|
  {
    hide *;
    if Pos(q.c.b.nodes, i, q.s) <= |q.D().nodes| then Pos(q.c.b.nodes, i, q.s) else |q.D().nodes|
  }

  lemma AtIs(q: Pair, i: nat)
    requires hide *; i <= |q.c.b.nodes| && (exists n :: n in q.c.b.nodes && FusesLoop(n))
    ensures At(q, i) == Pos(q.c.b.nodes, i, q.s)
  {
    hide RunBody, RunOrder, RunWaves, RunNode, RunLoop, RunMatch, RunTail, NodeStep, RoundStep, LaunchTo, FetchOne,
      Prepare, EvalPath, Eval, ApplyPipeline, Vars, DepsOf, HoistedLoop;
    LoopRebuildPrefix(q.c.b.nodes, i, |q.c.b.nodes|, q.s);
  }

  lemma PlainKnown(q: Pair, i: nat)
    requires hide *; q.Valid() && i < |q.c.b.nodes| && !FusesLoop(q.c.b.nodes[i])
    ensures var n := q.c.b.nodes[i];
            && AvoidsKind(n.kind, q.F()) && Avoids(q.c.b, q.F()) && NoRetry(n.kind)
            && At(q, i + 1) == At(q, i) + 1 && DoesWork(q.D().nodes, At(q, i), n)
  {
    hide RunBody, RunOrder, RunWaves, RunNode, RunLoop, RunMatch, RunTail, NodeStep, RoundStep, LaunchTo, FetchOne,
      Prepare, EvalPath, Eval, ApplyPipeline, Vars, KindVars, BodyVars, DepsOf, HoistedLoop, LoopRebuild, FuseLoops,
      FusesLoop;
    AvoidsNode(q.c.b, i, q.F());
    AtIs(q, i);
    AtIs(q, i + 1);
    OtherIsPlaced(q.c.b.nodes, i, q.s);
  }

  lemma PlainStep(q: Pair, i: nat, saved: nat, extra: nat)
    requires hide *; q.Valid() && i < |q.c.b.nodes| && !FusesLoop(q.c.b.nodes[i]) && q.c.At(i).ctl.Next?
    requires Together(q.c.At(i), q.Then(At(q, i)), saved, extra, q.F())
    ensures Together(q.c.At(i + 1), q.Then(At(q, i + 1)), saved, extra, q.F())
  {
    hide *;
    PlainKnown(q, i);
    if IsFetch(q.c.b, i) {
      PlainFetch(q, i, At(q, i), saved, extra);
    } else {
      PlainOther(q, i, At(q, i), saved, extra);
    }
  }

  lemma PlainFetch(q: Pair, i: nat, k: nat, saved: nat, extra: nat)
    requires hide RunBody, RunOrder, RunWaves, RunNode, RoundStep, FetchOne, Eval, ApplyPipeline, Vars;
             IsFetch(q.c.b, i) && q.c.At(i).ctl.Next? && k < |q.D().nodes| && DoesWork(q.D().nodes, k, q.c.b.nodes[i])
    requires Together(q.c.At(i), q.Then(k), saved, extra, q.F()) && AvoidsKind(q.c.b.nodes[i].kind, q.F())
    ensures Together(q.c.At(i + 1), q.Then(k + 1), saved, extra, q.F())
  {
    hide RunBody, RunWaves, RunLoop, RunMatch, RunTail, NodeStep, RoundStep, LaunchTo, Prepare, EvalPath, Eval,
      ApplyPipeline, Vars, DepsOf, HoistedLoop, RunOrder, RunNode, FetchOne, FetchEvents, Mutations, SameBut,
      FuseLoops, AllNames;
    var r, t, n := q.c.At(i), q.Then(k), q.c.b.nodes[i];
    TogetherHistory(r, t, saved, extra, q.F());
    EnvSame(r, t, saved, extra, q.F());
    hide Together;
    OrderStep(q.c.p, q.c.fuel, q.c.b, i, q.c.ea, q.c.hist);
    OrderStep(q.c.p, q.c.fuel, q.D(), k, q.c.ea, q.c.hist);
    FetchSame(q.c.p.world, n.kind.f, r.env, t.env, q.F(), HistAt(q.c, i));
    var one := FetchOne(q.c.p.world, n.kind.f, r.env, HistAt(q.c, i));
    BindSame(r.env, t.env, q.F(), n, one);
    BothGrow(r, t, saved, extra, q.F(), FetchEvents(one), FetchEvents(one), 0, q.c.At(i + 1), q.Then(k + 1));
  }

  lemma PlainOther(q: Pair, i: nat, k: nat, saved: nat, extra: nat)
    requires hide *; i < |q.c.b.nodes| && !IsFetch(q.c.b, i) && q.c.At(i).ctl.Next? && k < |q.D().nodes|
             && DoesWork(q.D().nodes, k, q.c.b.nodes[i])
    requires Together(q.c.At(i), q.Then(k), saved, extra, q.F())
    requires AvoidsKind(q.c.b.nodes[i].kind, q.F()) && Avoids(q.c.b, q.F()) && NoRetry(q.c.b.nodes[i].kind)
    ensures Together(q.c.At(i + 1), q.Then(k + 1), saved, extra, q.F())
  {
    hide RunBody, RunWaves, RunLoop, RunMatch, RunTail, NodeStep, RoundStep, LaunchTo, FetchOne, Prepare, EvalPath,
      Eval, ApplyPipeline, Vars, DepsOf, HoistedLoop, RunOrder, RunNode, Mutations, SameBut, FuseLoops, AllNames,
      Avoids, AvoidsKind, NoRetry;
    var r, t, n := q.c.At(i), q.Then(k), q.c.b.nodes[i];
    TogetherHistory(r, t, saved, extra, q.F());
    EnvSame(r, t, saved, extra, q.F());
    hide Together;
    OrderStep(q.c.p, q.c.fuel, q.c.b, i, q.c.ea, q.c.hist);
    OrderStep(q.c.p, q.c.fuel, q.D(), k, q.c.ea, q.c.hist);
    NodeIgnoresBody(q.c.p, InOrder, q.c.fuel, q.D(), q.c.b, q.D().nodes[k], n, t.env, HistAt(q.c, i));
    NodeUnseen(q.c.p, q.c.fuel, q.c.b, n, r.env, t.env, HistAt(q.c, i), q.F());
    var es := RunNode(q.c.p, InOrder, q.c.fuel, q.c.b, n, r.env, HistAt(q.c, i)).evs;
    BothGrow(r, t, saved, extra, q.F(), es, es, 0, q.c.At(i + 1), q.Then(k + 1));
  }

  lemma EnvSame(r: Run, t: Run, saved: nat, extra: nat, f: set<string>)
    requires Together(r, t, saved, extra, f)
    ensures SameBut(r.env, t.env, f) && t.ctl == r.ctl
  {
  }

  lemma BindSame(a: Env, e: Env, f: set<string>, n: Node, one: Fetched)
    requires SameBut(a, e, f)
    ensures one.val.Some? ==> SameBut(BindTo(a, n.binding, one.val.value), BindTo(e, n.binding, one.val.value), f)
  {
  }

  // ---------- past a fused loop ----------

  ghost function CollOf(c: Setup, i: nat): seq<Value>
    requires i < |c.b.nodes| && c.b.nodes[i].kind.ForEachN?
  {
    hide *;
    if CollAt(c, i).Some? then CollAt(c, i).value.Items() else []
  }

  ghost function HoistOf(q: Pair, i: nat): Hoist
    requires i < |q.c.b.nodes| && FusesLoop(q.c.b.nodes[i])
  {
    hide *;
    Hoist(q.c.p, q.c.fuel, q.D(), At(q, i), q.c.b.nodes[i].kind.fe, NextName(q.c.b.nodes, i, q.s), CollOf(q.c, i),
          q.c.At(i).env, q.c.ea, q.c.hist, q.F())
  }

  /** The loop as it is run, once the batches are bound in `e`. */
  ghost function LoopOf(q: Pair, i: nat, e: Env): Loop
    requires i < |q.c.b.nodes| && FusesLoop(q.c.b.nodes[i])
  {
    hide *;
    Loop(q.c.p, q.c.fuel, q.c.b.nodes[i].kind.fe, NextName(q.c.b.nodes, i, q.s), CollOf(q.c, i),
         q.c.At(i).env, e, q.c.hist + Mutations(q.c.At(i).evs), q.F())
  }

  lemma HoistIsValid(q: Pair, i: nat, saved: nat, extra: nat)
    requires hide *; q.Valid() && i < |q.c.b.nodes| && FusesLoop(q.c.b.nodes[i]) && q.c.At(i).ctl.Next?
    requires Together(q.c.At(i), q.Then(At(q, i)), saved, extra, q.F())
    ensures HoistOf(q, i).Valid()
  {
    hide RunBody, RunWaves, RunNode, RunLoop, RunMatch, RunTail, NodeStep, RoundStep, LaunchTo, FetchOne, Prepare,
      EvalPath, Eval, ApplyPipeline, Vars, KindVars, BodyVars, DepsOf, HoistedLoop, RunOrder, FuseLoops,
      LoopRebuild, Hoistable, LoopServed, Observe, Sends, BatchesPlaced, AllNames;
    FusedLoopFits(q.c.b, i, q.s);
    LoopIsPlaced(q.c.b.nodes, i, q.s);
    AtIs(q, i);
    assert LoopAtServed(q.c, i);
  }

  lemma LoopExists(q: Pair, i: nat)
    requires hide *; i < |q.c.b.nodes| && FusesLoop(q.c.b.nodes[i])
    ensures q.c.b.nodes[i].kind.ForEachN? && exists n :: n in q.c.b.nodes && FusesLoop(n)
  {
    hide Vars;
    assert q.c.b.nodes[i] in q.c.b.nodes;
  }

  /** The loop node itself, after its batches. */
  lemma LoopNodePlaced(q: Pair, i: nat)
    requires hide RunBody, RunOrder, RunWaves, RunNode, RoundStep, FetchOne, Eval, Vars;
             q.Valid() && i < |q.c.b.nodes| && FusesLoop(q.c.b.nodes[i])
    ensures var fe := q.c.b.nodes[i].kind.fe;
            && At(q, i + 1) == At(q, i) + Plans(fe) + 1 && At(q, i) + Plans(fe) < |q.D().nodes|
            && DoesWork(q.D().nodes, At(q, i) + Plans(fe), LoopNode(q.c.b.nodes[i], NextName(q.c.b.nodes, i, q.s), 0))
  {
    hide RunBody, RunOrder, RunWaves, RunNode, RunLoop, RunMatch, RunTail, NodeStep, RoundStep, LaunchTo, FetchOne,
      Prepare, EvalPath, Eval, ApplyPipeline, Vars, KindVars, BodyVars, DepsOf, HoistedLoop, Pair.Valid, FusesLoop,
      BatchesPlaced, LoopNode, NextName, Pos;
    LoopExists(q, i);
    hide FuseLoops, LoopRebuild, Hoistable;
    LoopIsPlaced(q.c.b.nodes, i, q.s);
    AtIs(q, i);
    AtIs(q, i + 1);
  }

  /** A loop whose collection prints nothing when it is evaluated. */
  lemma LoopNodeRuns(p: Prog, fuel: nat, b: Body, n: Node, fe: ForEachIr, env: Env, hist: seq<Request>,
      coll: seq<Value>)
    requires hide *; n.kind == ForEachN(fe) && Quiet.Quiet(fe.iter)
    requires Eval(fe.iter, env, None).val.Some? && coll == Eval(fe.iter, env, None).val.value.Items()
    ensures RunNode(p, InOrder, fuel, b, n, env, hist) == RunLoop(p, InOrder, fuel, fe, coll, |coll|, env, hist)
  {
    hide FetchOne, Prepare, ApplyPipeline, Vars, Eval, RunLoop;
    QuietEval(fe.iter, env, None);
    var r := RunLoop(p, InOrder, fuel, fe, coll, |coll|, env, hist);
    assert Prints([]) + r.evs == r.evs;
  }

  /** The state after the batches. */
  lemma BatchesDone(q: Pair, i: nat, saved: nat, extra: nat)
    requires hide RunBody, RunOrder, RunWaves, RunNode, RoundStep, FetchOne, Eval, Vars;
             AtLoop(q, i) && InStep(q, i, saved, extra)
    ensures AtLoop(q, i) && HoistOf(q, i).Valid()
    ensures var h := HoistOf(q, i);
            h.at + Plans(h.fe) <= |h.d.nodes| && Batched(h, |h.fe.body.nodes|, h.Then(h.at + Plans(h.fe)))
  {
    hide RunBody, RunWaves, RunNode, RunLoop, RunMatch, RunTail, NodeStep, RoundStep, LaunchTo, FetchOne, Prepare,
      EvalPath, Eval, ApplyPipeline, Vars, KindVars, BodyVars, DepsOf, HoistedLoop, RunOrder, FuseLoops,
      Hoist.Valid, Batched, Together, Pair.Valid, At, Plans;
    HoistIsValid(q, i, saved, extra);
    PlansAre(HoistOf(q, i).fe);
    hide HoistOf;
    BatchesRun(HoistOf(q, i), |HoistOf(q, i).fe.body.nodes|);
  }

  lemma PlansAre(fe: ForEachIr)
    ensures hide *; PlanCount(fe, |fe.body.nodes|) == Plans(fe)
  {
    hide Vars, DepsOf;
  }

  /** With its batches bound, the loop may begin. */
  lemma LoopMayBegin(q: Pair, i: nat, t: Run)
    requires hide RunBody, RunOrder, RunWaves, RunNode, RoundStep, FetchOne, Eval, Vars;
             i < |q.c.b.nodes| && FusesLoop(q.c.b.nodes[i])
    requires HoistOf(q, i).Valid() && Batched(HoistOf(q, i), |HoistOf(q, i).fe.body.nodes|, t)
    ensures LoopOf(q, i, t.env).Valid() && SameBut(q.c.At(i).env, t.env, q.F())
    ensures Vars(q.c.b.nodes[i].kind.fe.iter, true) !! q.F() && Quiet.Quiet(q.c.b.nodes[i].kind.fe.iter)
            && CollAt(q.c, i).Some?
  {
    hide RunBody, RunWaves, RunNode, RunLoop, RunMatch, RunTail, NodeStep, RoundStep, LaunchTo, FetchOne, Prepare,
      EvalPath, ApplyPipeline, Vars, KindVars, BodyVars, DepsOf, HoistedLoop, Eval, RunOrder, FuseLoops, FusesLoop,
      Hoistable, SuppliedBy, LoopServed, LoopAvoids, AllNames, BatchesPlaced, Observe, Sends;
  }

  lemma BatchesCounted(q: Pair, i: nat, saved: nat, extra: nat, t: Run)
    requires hide *; i < |q.c.b.nodes| && FusesLoop(q.c.b.nodes[i])
    requires Together(q.c.At(i), q.Then(At(q, i)), saved, extra, q.F())
    requires Batched(HoistOf(q, i), |HoistOf(q, i).fe.body.nodes|, t)
    ensures Together(q.c.At(i), t, saved, extra + BatchesSent(q.c, i), q.F())
  {
    hide RunBody, RunWaves, RunNode, RunLoop, RunMatch, RunTail, NodeStep, RoundStep, LaunchTo, FetchOne, Prepare,
      EvalPath, Eval, ApplyPipeline, Vars, DepsOf, HoistedLoop, RunOrder, FuseLoops, SuppliedBy, Observe, Sends,
      AllNames, FusesLoop;
  }

  /** One request for every hoisted fetch, or none when there is nothing to iterate over. */
  ghost function BatchesSent(c: Setup, i: nat): nat
    requires i < |c.b.nodes| && FusesLoop(c.b.nodes[i])
  {
    hide *;
    if CollOf(c, i) == [] then 0 else Plans(c.b.nodes[i].kind.fe)
  }

  /** The two loop nodes, from states in step. */
  lemma LoopNodesAlike(q: Pair, i: nat, t: Run, n: Node) returns (more: nat)
    requires hide RunBody, RunOrder, RunWaves, RunNode, RoundStep, FetchOne, Eval, ApplyPipeline, Vars;
             i < |q.c.b.nodes| && FusesLoop(q.c.b.nodes[i]) && LoopOf(q, i, t.env).Valid()
             && SameBut(q.c.At(i).env, t.env, q.F())
    requires Vars(q.c.b.nodes[i].kind.fe.iter, true) !! q.F() && Quiet.Quiet(q.c.b.nodes[i].kind.fe.iter)
             && CollAt(q.c, i).Some?
    requires n.kind == ForEachN(HoistedLoop(q.c.b.nodes[i].kind.fe, NextName(q.c.b.nodes, i, q.s)))
    requires RunNode(q.c.p, InOrder, q.c.fuel, q.c.b, q.c.b.nodes[i], q.c.At(i).env, HistAt(q.c, i)).ctl != Fail(true)
    ensures var r := RunNode(q.c.p, InOrder, q.c.fuel, q.c.b, q.c.b.nodes[i], q.c.At(i).env, HistAt(q.c, i));
            var u := RunNode(q.c.p, InOrder, q.c.fuel, q.D(), n, t.env, HistAt(q.c, i));
            Step(r, u, more, q.F())
    ensures more <= PerElement(q.c, i) && (AllTurns(q, i) ==> more == PerElement(q.c, i))
  {
    hide RunBody, RunWaves, RunMatch, RunTail, NodeStep, RoundStep, LaunchTo, FetchOne, Prepare, EvalPath,
      ApplyPipeline, Vars, KindVars, BodyVars, DepsOf;
    assert q.c.b.nodes[i].kind.ForEachN?;
    hide RunOrder, RunLoop, FuseLoops, Eval, Loop.Valid, FusesLoop, Plans, Step;
    var fe, coll, l := q.c.b.nodes[i].kind.fe, CollOf(q.c, i), LoopOf(q, i, t.env);
    EvalSame(fe.iter, q.c.At(i).env, t.env, q.F());
    HoistedIter(fe, l.s);
    LoopNodeRuns(q.c.p, q.c.fuel, q.c.b, q.c.b.nodes[i], fe, q.c.At(i).env, l.hist, coll);
    LoopNodeRuns(q.c.p, q.c.fuel, q.D(), n, HoistedLoop(fe, l.s), t.env, l.hist, coll);
    hide RunNode, HoistedLoop;
    more := LoopSteps(l, |coll|);
    SameTurns(q, i, t.env);
  }

  /** The loop nodes in the two runs, the second at position `k`. */
  lemma LoopStepTo(q: Pair, i: nat, k: nat, saved: nat, extra: nat) returns (more: nat)
    requires hide RunBody, RunOrder, RunWaves, RunNode, RoundStep, FetchOne, Eval, ApplyPipeline, Vars;
             AtLoopNode(q, i, k, saved, extra) && q.c.At(i).ctl.Next? && q.c.At(i + 1).ctl != Fail(true)
    ensures k < |q.D().nodes| && i < |q.c.b.nodes| && FusesLoop(q.c.b.nodes[i])
    ensures Together(q.c.At(i + 1), q.Then(k + 1), saved + more, extra, q.F())
    ensures more <= PerElement(q.c, i) && (AllTurns(q, i) ==> more == PerElement(q.c, i))
  {
    hide RunBody, RunWaves, RunLoop, RunMatch, RunTail, NodeStep, RoundStep, LaunchTo, FetchOne, Prepare, EvalPath,
      Eval, ApplyPipeline, Vars, KindVars, BodyVars, DepsOf;
    assert q.c.b.nodes[i].kind.ForEachN?;
    hide RunOrder, RunNode, FuseLoops, FusesLoop, Together, Loop.Valid, HoistedLoop, PerElement, AllTurns, SameBut,
      Mutations;
    var r, t := q.c.At(i), q.Then(k);
    TogetherHistory(r, t, saved, extra, q.F());
    CtlSame(r, t, saved, extra, q.F());
    OrderStep(q.c.p, q.c.fuel, q.c.b, i, q.c.ea, q.c.hist);
    OrderStep(q.c.p, q.c.fuel, q.D(), k, q.c.ea, q.c.hist);
    more := LoopNodesAlike(q, i, t, q.D().nodes[k]);
    var m := RunNode(q.c.p, InOrder, q.c.fuel, q.c.b, q.c.b.nodes[i], r.env, HistAt(q.c, i));
    var u := RunNode(q.c.p, InOrder, q.c.fuel, q.D(), q.D().nodes[k], t.env, HistAt(q.c, i));
    BothGrow(r, t, saved, extra, q.F(), m.evs, u.evs, more, q.c.At(i + 1), q.Then(k + 1));
  }

  /** In step at node `i`. */
  ghost predicate InStep(q: Pair, i: nat, saved: nat, extra: nat) {
    hide *;
    i <= |q.c.b.nodes| && Together(q.c.At(i), q.Then(At(q, i)), saved, extra, q.F())
  }

  ghost predicate AtLoop(q: Pair, i: nat) {
    hide *;
    q.Valid() && i < |q.c.b.nodes| && FusesLoop(q.c.b.nodes[i]) && q.c.At(i).ctl.Next?
  }

  /** Ready to run the loop node at position `k` of the rewritten body. */
  ghost predicate AtLoopNode(q: Pair, i: nat, k: nat, saved: nat, extra: nat) {
    hide RunBody, RunOrder, RunWaves, RunNode, RoundStep, FetchOne, Eval, ApplyPipeline, Vars;
    && i < |q.c.b.nodes| && FusesLoop(q.c.b.nodes[i]) && k < |q.D().nodes|
    && Together(q.c.At(i), q.Then(k), saved, extra, q.F())
    && LoopOf(q, i, q.Then(k).env).Valid() && SameBut(q.c.At(i).env, q.Then(k).env, q.F())
    && Vars(q.c.b.nodes[i].kind.fe.iter, true) !! q.F() && Quiet.Quiet(q.c.b.nodes[i].kind.fe.iter)
       && CollAt(q.c, i).Some?
    && q.D().nodes[k].kind == ForEachN(HoistedLoop(q.c.b.nodes[i].kind.fe, NextName(q.c.b.nodes, i, q.s)))
  }

  lemma ReachLoop(q: Pair, i: nat, saved: nat, extra: nat) returns (k: nat)
    requires hide *; AtLoop(q, i) && InStep(q, i, saved, extra)
    ensures i < |q.c.b.nodes| && FusesLoop(q.c.b.nodes[i]) && AtLoopNode(q, i, k, saved, extra + BatchesSent(q.c, i))
            && k + 1 == At(q, i + 1)
  {
    hide RunBody, RunWaves, RunNode, RunLoop, RunMatch, RunTail, NodeStep, RoundStep, LaunchTo, FetchOne, Prepare,
      EvalPath, Eval, ApplyPipeline, Vars, KindVars, BodyVars, DepsOf, RunOrder, Pair.Valid, FuseLoops, Together,
      Loop.Valid, Hoist.Valid, HoistedLoop, BatchesSent, Batched, SameBut, At;
    k := At(q, i) + Plans(q.c.b.nodes[i].kind.fe);
    LoopNodePlaced(q, i);
    BatchesDone(q, i, saved, extra);
    BatchesCounted(q, i, saved, extra, q.Then(k));
    LoopMayBegin(q, i, q.Then(k));
  }

  lemma LoopStepAt(q: Pair, i: nat, saved: nat, extra: nat) returns (more: nat)
    requires hide RunBody, RunOrder, RunWaves, RunNode, RoundStep, FetchOne, Eval, Vars;
             AtLoop(q, i) && InStep(q, i, saved, extra) && q.c.At(i + 1).ctl != Fail(true)
    ensures InStep(q, i + 1, saved + more, extra + BatchesSent(q.c, i))
    ensures more <= PerElement(q.c, i) && (AllTurns(q, i) ==> more == PerElement(q.c, i))
  {
    hide RunBody, RunWaves, RunNode, RunLoop, RunMatch, RunTail, NodeStep, RoundStep, LaunchTo, FetchOne, Prepare,
      EvalPath, Eval, ApplyPipeline, Vars, KindVars, BodyVars, DepsOf, HoistedLoop, RunOrder, Pair.Valid, At,
      FuseLoops, BatchesSent, PerElement, AllTurns, Together, AtLoopNode;
    var k := ReachLoop(q, i, saved, extra);
    more := LoopStepTo(q, i, k, saved, extra + BatchesSent(q.c, i));
  }

  lemma CtlSame(r: Run, t: Run, saved: nat, extra: nat, f: set<string>)
    requires Together(r, t, saved, extra, f)
    ensures t.ctl == r.ctl
  {
  }

  lemma HoistedIter(fe: ForEachIr, s: nat)
    ensures HoistedLoop(fe, s).iter == fe.iter
  {
    hide Vars, DepsOf;
  }

  /** The requests of the hoisted fetches, one for every element. */
  ghost function PerElement(c: Setup, i: nat): nat
    requires i < |c.b.nodes| && FusesLoop(c.b.nodes[i])
  {
    hide *;
    |CollOf(c, i)| * Plans(c.b.nodes[i].kind.fe)
  }

  /** Every iteration of loop `i` runs to its end. */
  ghost predicate AllTurns(q: Pair, i: nat)
    requires i < |q.c.b.nodes| && FusesLoop(q.c.b.nodes[i])
  {
    hide *;
    Completes(LoopOf(q, i, q.c.At(i).env), |CollOf(q.c, i)|)
  }

  lemma SameTurns(q: Pair, i: nat, e: Env)
    requires hide RunBody, RunOrder, RunWaves, RunNode, RoundStep, FetchOne, Eval, Vars;
             i < |q.c.b.nodes| && FusesLoop(q.c.b.nodes[i])
    ensures Completes(LoopOf(q, i, e), |CollOf(q.c, i)|) == AllTurns(q, i)
  {
    hide RunBody, RunWaves, RunNode, RunMatch, RunTail, NodeStep, RoundStep, LaunchTo, FetchOne, Prepare, EvalPath,
      Eval, ApplyPipeline, Vars, DepsOf, HoistedLoop, RunOrder, RunLoop;
    var l, m := LoopOf(q, i, e), LoopOf(q, i, q.c.At(i).env);
    forall j: nat | j < |CollOf(q.c, i)| ensures TurnCompletes(l, j) == TurnCompletes(m, j) {
      assert l.At(j) == m.At(j);
      assert l.Turn(j).At(|l.fe.body.nodes|) == m.Turn(j).At(|m.fe.body.nodes|);
    }
  }

  // ---------- the theorem ----------

  /** The batches sent for the loops among the first `i` nodes. */
  ghost function BatchesTo(c: Setup, i: nat): nat
    requires i <= |c.b.nodes|
  {
    hide *;
    if i == 0 then 0
    else BatchesTo(c, i - 1) + if FusesLoop(c.b.nodes[i - 1]) && c.At(i - 1).ctl.Next? then BatchesSent(c, i - 1) else 0
  }

  /** One request for every element and hoisted fetch of those loops. */
  ghost function PerElementTo(c: Setup, i: nat): nat
    requires i <= |c.b.nodes|
  {
    hide *;
    if i == 0 then 0
    else
      PerElementTo(c, i - 1)
      + if FusesLoop(c.b.nodes[i - 1]) && c.At(i - 1).ctl.Next? then PerElement(c, i - 1) else 0
  }

  /** Every iteration of every loop reached runs to its end. */
  ghost predicate AllLoopsTurn(q: Pair) {
    hide *;
    forall i: nat | i < |q.c.b.nodes| && FusesLoop(q.c.b.nodes[i]) && q.c.At(i).ctl.Next? :: AllTurns(q, i)
  }

  lemma AtGrows(q: Pair, i: nat)
    requires hide *; q.Valid() && i < |q.c.b.nodes|
    ensures At(q, i) <= At(q, i + 1)
  {
    hide *;
    if FusesLoop(q.c.b.nodes[i]) { LoopNodePlaced(q, i); } else { PlainKnown(q, i); }
  }

  /** Once the original run has stopped, so has the rewritten one. */
  lemma StaysTogether(q: Pair, i: nat, saved: nat, extra: nat)
    requires hide *; q.Valid() && i < |q.c.b.nodes| && !q.c.At(i).ctl.Next? && InStep(q, i, saved, extra)
    ensures InStep(q, i + 1, saved, extra)
  {
    hide RunBody, RunWaves, RunNode, RunLoop, RunMatch, RunTail, NodeStep, RoundStep, LaunchTo, FetchOne, Prepare,
      EvalPath, Eval, ApplyPipeline, Vars, KindVars, BodyVars, DepsOf, HoistedLoop, RunOrder, Pair.Valid, At,
      FuseLoops;
    AtGrows(q, i);
    CtlSame(q.c.At(i), q.Then(At(q, i)), saved, extra, q.F());
    Stays(q.c, i, i + 1);
    Stays(q.c.(b := q.D()), At(q, i), At(q, i + 1));
  }

  lemma StartTogether(q: Pair)
    requires hide *; q.Valid()
    ensures InStep(q, 0, 0, 0)
  {
    hide RunNode, RunLoop, RunMatch, LaunchTo, FetchOne, Prepare, ApplyPipeline, Vars, DepsOf, LoopsReady,
      LoopsServed, Eval, FuseLoops;
    AtIs(q, 0);
  }

  lemma {:induction false} LoopsTogether(q: Pair, i: nat) returns (saved: nat)
    requires hide *; q.Valid() && i <= |q.c.b.nodes| && q.c.At(i).ctl != Fail(true)
    ensures InStep(q, i, saved, BatchesTo(q.c, i))
    ensures saved <= PerElementTo(q.c, i) && (AllLoopsTurn(q) ==> saved == PerElementTo(q.c, i))
    decreases i
  {
    hide RunOrder, Pair.Valid, FuseLoops, BatchesSent, PerElement, AllTurns, InStep, FusesLoop;
    if i == 0 {
      StartTogether(q);
      saved := 0;
    } else {
      Stays(q.c, i - 1, i);
      saved := LoopsTogether(q, i - 1);
      var extra := BatchesTo(q.c, i - 1);
      if !q.c.At(i - 1).ctl.Next? {
        StaysTogether(q, i - 1, saved, extra);
      } else if FusesLoop(q.c.b.nodes[i - 1]) {
        var more := LoopStepAt(q, i - 1, saved, extra);
        saved := saved + more;
      } else {
        PlainInStep(q, i - 1, saved, extra);
      }
    }
  }

  lemma PlainInStep(q: Pair, i: nat, saved: nat, extra: nat)
    requires hide *; q.Valid() && i < |q.c.b.nodes| && !FusesLoop(q.c.b.nodes[i]) && q.c.At(i).ctl.Next?
             && InStep(q, i, saved, extra)
    ensures InStep(q, i + 1, saved, extra)
  {
    hide RunBody, RunWaves, RunNode, RunLoop, RunMatch, RunTail, NodeStep, RoundStep, LaunchTo, FetchOne, Prepare,
      EvalPath, Eval, ApplyPipeline, Vars, KindVars, BodyVars, DepsOf, HoistedLoop, RunOrder, Pair.Valid, At,
      FuseLoops, FusesLoop, Together;
    PlainStep(q, i, saved, extra);
  }

  /** Under the batch promise, moving the fetches out of the loops leaves every binding, everything
      observed and the outcome as they were.  Each hoisted fetch of a loop that is reached sends one
      request, or none when there is nothing to iterate over; what it sends no more is at most one request
      for every element, and exactly that many when the loops run to their end. */
  lemma LoopFusionPreserves(q: Pair) returns (saved: nat)
    requires hide *; q.Valid() && RunBody(q.c.p, InOrder, q.c.fuel, q.c.b, q.c.ea, q.c.hist).ctl != Fail(true)
    ensures var r, t := RunBody(q.c.p, InOrder, q.c.fuel, q.c.b, q.c.ea, q.c.hist),
                        RunBody(q.c.p, InOrder, q.c.fuel, q.D(), q.c.ea, q.c.hist);
            && t.ctl == r.ctl && Observe(t.evs) == Observe(r.evs) && SameBut(r.env, t.env, q.F())
            && Sends(t.evs) + saved == Sends(r.evs) + BatchesTo(q.c, |q.c.b.nodes|)
    ensures saved <= PerElementTo(q.c, |q.c.b.nodes|)
    ensures AllLoopsTurn(q) ==> saved == PerElementTo(q.c, |q.c.b.nodes|)
  {
    hide RunWaves, RunNode, RunLoop, RunMatch, RunTail, NodeStep, RoundStep, LaunchTo, FetchOne, Prepare, EvalPath,
      ApplyPipeline, Vars, KindVars, BodyVars, DepsOf, HoistedLoop, Eval, LoopFit, AllLoopsTurn;
    var n := |q.c.b.nodes|;
    assert q.c.At(n) == RunBody(q.c.p, InOrder, q.c.fuel, q.c.b, q.c.ea, q.c.hist);
    assert q.Then(|q.D().nodes|) == RunBody(q.c.p, InOrder, q.c.fuel, q.D(), q.c.ea, q.c.hist);
    hide RunBody, RunOrder, FuseLoops, Observe, Sends, SameBut;
    EndPlace(q);
    hide Pair.Valid;
    saved := LoopsTogether(q, n);
  }

  lemma EndPlace(q: Pair)
    requires hide *; q.Valid()
    ensures At(q, |q.c.b.nodes|) == |q.D().nodes|
  {
    hide RunBody, RunOrder, RunWaves, RunNode, RunLoop, RunMatch, RunTail, NodeStep, RoundStep, LaunchTo, FetchOne,
      Prepare, EvalPath, Eval, ApplyPipeline, Vars, KindVars, BodyVars, DepsOf, HoistedLoop, LoopsServed;
    AtIs(q, |q.c.b.nodes|);
  }
}
