/** Running the computed waves refines running the statements one by one, in every nested body
    and in every flow that is called. */
module Refinement {
  import opened Wrappers
  import opened Ast
  import opened Values
  import opened Evaluator
  import opened Frames
  import opened Ir
  import opened Exec
  import opened Quiet
  import opened FetchFrames
  import opened Readiness
  import opened Traces
  import opened ReferenceRun
  import opened Rounds

  // ---------- one node in both modes ----------

  ghost predicate NodeMatches(n: Node, r: Run, s: Run) {
    Same(r, s) && (r.ctl.Next? ==> forall x | x in BindSet(n) :: Lookup(r.env, x) == Lookup(s.env, x))
  }

  /** A node does the same in both modes when it reads the same. */
  lemma {:induction false} NodeAgrees(p: Prog, fuel: nat, b: Body, n: Node, a: Env, e: Env, hist: seq<Request>,
      late: bool)
    requires ReadyProg(p) && ReadyKind(n.kind) && !n.kind.FetchN? && IsEffect(n.kind)
    requires n.binding.Some? ==> MayBind(n.kind)
    requires late ==> LateProg(p) && ReturnsLastKind(n.kind)
    requires Agree(a, e, KindVars(n.kind, true))
    requires Comparable(late, RunNode(p, InOrder, fuel, b, n, a, hist), RunNode(p, Waves, fuel, b, n, e, hist))
    ensures NodeMatches(n, RunNode(p, InOrder, fuel, b, n, a, hist), RunNode(p, Waves, fuel, b, n, e, hist))
    decreases fuel, n, 5, 0
  {
    hide FetchOne, Prepare, ApplyPipeline, Vars, Observe, RunMatch, RunLoop, RunExpr, Eval;
    match n.kind {
      case LogN(v) => EvalFrame(v, a, e, None);
      case AssertN(v) => EvalFrame(v, a, e, None);
      case ReturnN(v) => if v.Some? { EvalFrame(v.value, a, e, None); }
      case ExprN(v) => ExprAgrees(p, fuel, n, v, a, e, hist, late);
      case MatchN(m) => MatchAgrees(p, fuel, m, b, a, e, hist, late);
      case ForEachN(fe) => LoopNodeAgrees(p, fuel, b, n, fe, a, e, hist, late);
    }
  }

  lemma {:induction false} LoopNodeAgrees(p: Prog, fuel: nat, b: Body, n: Node, fe: ForEachIr, a: Env, e: Env,
      hist: seq<Request>, late: bool)
    requires n.kind == ForEachN(fe) && ReadyProg(p) && ReadyKind(n.kind)
    requires late ==> LateProg(p) && ReturnsLastKind(n.kind)
    requires Agree(a, e, Vars(fe.iter, true) + (BodyVars(fe.body, true) - {fe.loopVar}))
    requires Comparable(late, RunNode(p, InOrder, fuel, b, n, a, hist), RunNode(p, Waves, fuel, b, n, e, hist))
    ensures Same(RunNode(p, InOrder, fuel, b, n, a, hist), RunNode(p, Waves, fuel, b, n, e, hist))
    decreases fuel, n, 4, 0
  {
    hide FetchOne, Prepare, ApplyPipeline, Vars, Observe, RunLoop, Eval;
    EvalFrame(fe.iter, a, e, None);
    var v := Eval(fe.iter, a, None);
    if v.val.Some? {
      var items := v.val.value.Items();
      var r := RunLoop(p, InOrder, fuel, fe, items, |items|, a, hist);
      var s := RunLoop(p, Waves, fuel, fe, items, |items|, e, hist);
      assert fe < n.kind;
      LoopAgrees(p, fuel, fe, items, |items|, a, e, hist, late);
      ObserveAppend(Prints(v.out), r.evs);
      ObserveAppend(Prints(v.out), s.evs);
    }
  }

  lemma {:induction false} ExprAgrees(p: Prog, fuel: nat, n: Node, v: Expr, a: Env, e: Env, hist: seq<Request>,
      late: bool)
    requires hide *; ReadyProg(p) && (late ==> LateProg(p))
    requires Agree(a, e, Vars(v, true))
    requires Comparable(late, RunExpr(p, InOrder, fuel, n, v, a, hist), RunExpr(p, Waves, fuel, n, v, e, hist))
    ensures Same(RunExpr(p, InOrder, fuel, n, v, a, hist), RunExpr(p, Waves, fuel, n, v, e, hist))
    ensures RunExpr(p, InOrder, fuel, n, v, a, hist).ctl.Next?
            ==> RunExpr(p, InOrder, fuel, n, v, a, hist).ctl.last.Some?
    decreases fuel, n, 4, 0
  {
    hide ApplyPipeline, Ready, Observe, RunBody, Eval;
    EvalFrame(v, a, e, None);
    if CallName(v).Some? && FindFlow(p.flows, CallName(v).value).Some? {
      assert Vars(v, true) == Vars(v.callee, true) + ExprsVars(v.args, true);
      ArgsFrame(v.args, a, e);
      var args := ArgValues(v.args, a);
      if args.val.Some? && fuel > 0 {
        var flow := FindFlow(p.flows, CallName(v).value).value;
        var env := Env(ParamEnv(flow.params, args.val.value), a.os);
        var r, s := RunBody(p, InOrder, fuel - 1, flow.body, env, hist),
            RunBody(p, Waves, fuel - 1, flow.body, env, hist);
        assert Comparable(late, r, s);
        BodyAgrees(p, fuel - 1, flow.body, env, env, hist, late);
        ObserveAppend(Prints(args.out), r.evs);
        ObserveAppend(Prints(args.out), s.evs);
      }
    }
  }

  lemma {:induction false} ArmVarsIn(arms: seq<ArmIr>, arm: ArmIr)
    requires arm in arms
    ensures ArmIrVars(arm, true) <= ArmsIrVars(arms, true)
  {
    hide Vars, KindVars, BodyVars;
    if arm != arms[0] { ArmVarsIn(arms[1..], arm); }
  }

  lemma {:induction false} MatchAgrees(p: Prog, fuel: nat, m: MatchIr, b: Body, a: Env, e: Env, hist: seq<Request>,
      late: bool)
    requires hide *; ReadyProg(p) && ReadyKind(MatchN(m))
    requires late ==> LateProg(p) && ReturnsLastKind(MatchN(m))
    requires Agree(a, e, KindVars(MatchN(m), true))
    requires Comparable(late, RunMatch(p, InOrder, fuel, m, b, a, hist, MAX_RETRIES),
             RunMatch(p, Waves, fuel, m, b, e, hist, MAX_RETRIES))
    ensures Same(RunMatch(p, InOrder, fuel, m, b, a, hist, MAX_RETRIES),
            RunMatch(p, Waves, fuel, m, b, e, hist, MAX_RETRIES))
    ensures RunMatch(p, InOrder, fuel, m, b, a, hist, MAX_RETRIES).ctl.Next? ==>
              RunMatch(p, InOrder, fuel, m, b, a, hist, MAX_RETRIES).ctl.last.Some?
    decreases fuel, m, 3, 0
  {
    hide FetchOne, Prepare, ApplyPipeline, Vars, RunBody, Observe, Ready, Eval, BodyVars, ArmsVars;
    assert KindVars(MatchN(m), true) == Vars(m.scrutinee, true) + ArmsIrVars(m.arms, true);
    EvalFrame(m.scrutinee, a, e, None);
    var v := Eval(m.scrutinee, a, None);
    if v.val.Some? && FirstArm(m.arms, v.val.value).Some? {
      FirstArmIn(m.arms, v.val.value);
      var arm := FirstArm(m.arms, v.val.value).value;
      assert ReadyArm(arm) && (late ==> ReturnsLastArm(arm));
      var binds := MatchPattern(arm.pattern, v.val.value).value;
      MatchCaptures(arm.pattern, v.val.value);
      ArmVarsIn(m.arms, arm);
      var ia, ie := InsertAll(a, binds), InsertAll(e, binds);
      match arm.body {
        case ValueArm(w) =>
          AgreeInsertAll(a, e, Vars(w, true), binds);
          EvalFrame(w, ia, ie, None);
        case BodyArm(body) =>
          AgreeInsertAll(a, e, BodyVars(body, true), binds);
          assert arm.body < arm;
          var r, s := RunBody(p, InOrder, fuel, body, ia, hist), RunBody(p, Waves, fuel, body, ie, hist);
          assert Comparable(late, r, s);
          BodyAgrees(p, fuel, body, ia, ie, hist, late);
          ObserveAppend(Prints(v.out), r.evs);
          ObserveAppend(Prints(v.out), s.evs);
      }
    }
  }

  lemma {:induction false} LoopAgrees(p: Prog, fuel: nat, fe: ForEachIr, items: seq<Value>, k: nat, a: Env, e: Env,
      hist: seq<Request>, late: bool)
    requires hide *; ReadyProg(p) && ReadyKind(ForEachN(fe)) && k <= |items|
    requires late ==> LateProg(p) && ReturnsLastKind(ForEachN(fe))
    requires Agree(a, e, BodyVars(fe.body, true) - {fe.loopVar})
    requires Comparable(late, RunLoop(p, InOrder, fuel, fe, items, k, a, hist),
             RunLoop(p, Waves, fuel, fe, items, k, e, hist))
    ensures Same(RunLoop(p, InOrder, fuel, fe, items, k, a, hist), RunLoop(p, Waves, fuel, fe, items, k, e, hist))
    decreases fuel, fe, 3, k
  {
    hide FetchOne, Prepare, Eval, ApplyPipeline, Vars, BodyVars, BindSet, Observe, RunBody, Mutations;
    if k > 0 {
      var r, s := RunLoop(p, InOrder, fuel, fe, items, k - 1, a, hist),
          RunLoop(p, Waves, fuel, fe, items, k - 1, e, hist);
      assert Comparable(late, r, s);
      LoopAgrees(p, fuel, fe, items, k - 1, a, e, hist, late);
      if r.ctl.Next? {
        LoopWithin(p, InOrder, fuel, fe, items, k - 1, a, hist);
        LoopWithin(p, Waves, fuel, fe, items, k - 1, e, hist);
        MutationsObserved(r.evs);
        MutationsObserved(s.evs);
        var h := hist + Mutations(r.evs);
        AgreeInsert(r.env, s.env, BodyVars(fe.body, true), fe.loopVar, items[k - 1]);
        var ra, sa := Insert(r.env, fe.loopVar, items[k - 1]), Insert(s.env, fe.loopVar, items[k - 1]);
        var rb, sb := RunBody(p, InOrder, fuel, fe.body, ra, h), RunBody(p, Waves, fuel, fe.body, sa, h);
        assert Comparable(late, rb, sb);
        BodyAgrees(p, fuel, fe.body, ra, sa, h, late);
        ObserveAppend(r.evs, rb.evs);
        ObserveAppend(s.evs, sb.evs);
      }
    }
  }

  // ---------- a whole body ----------

  /** In a ready body, the run of the waves ends and is observed as the run in program order, and
      every node completed by both leaves the same binding. */
  lemma {:induction false} BodyAgrees(p: Prog, fuel: nat, b: Body, a: Env, e: Env, hist: seq<Request>, late: bool)
    requires hide *; ReadyProg(p) && Ready(b) && Agree(a, e, BodyVars(b, true))
    requires late ==> LateProg(p) && ReturnsLast(b)
    requires Comparable(late, RunBody(p, InOrder, fuel, b, a, hist), RunBody(p, Waves, fuel, b, e, hist))
    ensures var r, s := RunBody(p, InOrder, fuel, b, a, hist), RunBody(p, Waves, fuel, b, e, hist);
            Same(r, s)
            && (r.ctl.Next? ==>
                  forall i: nat, x: string | i < |b.nodes| && InWaves(b, |b.waves|, i) && x in BindSet(b.nodes[i]) ::
                    Lookup(r.env, x) == Lookup(s.env, x))
    decreases fuel, b, 20, 0
  {
    hide RunNode, RunLoop, RunMatch, LaunchTo, FetchOne, Prepare, Eval, ApplyPipeline, Vars, Ready, RunOrder;
    var c := Setup(p, fuel, b, a, e, hist, late);
    assert c.At(0) == Start(a) by { ZeroRun(p, fuel, b, a, hist); }
    assert c.At(|b.nodes|) == RunBody(p, InOrder, fuel, b, a, hist);
    var s := StopPoint(c, 0);
    WavesTrack(c, s, |b.waves|);
    var t := RunBody(p, Waves, fuel, b, e, hist);
    var done := DoneBy(b, |b.waves|);
    if Stopped(c, s, t) {
    } else if t.ctl != Fail(true) || c.Good() {
      AllEffectsDone(c, s, t, done);
      if c.At(|b.nodes|).ctl.Next? { FinalBindings(c, s, t, done); }
    }
  }

  lemma ZeroRun(p: Prog, fuel: nat, b: Body, env: Env, hist: seq<Request>)
    ensures hide *; RunOrder(p, fuel, b, 0, env, hist) == Start(env)
  {
    hide RunNode, RunLoop, RunMatch, LaunchTo, FetchOne, Prepare, Eval, ApplyPipeline, Vars;
  }

  lemma AllEffectsDone(c: Setup, s: nat, t: Run, done: set<NodeId>)
    requires hide RunBody, RunOrder, RunWaves, RunNode, RoundStep, FetchOne, Eval, Vars, Uses;
             c.Valid() && c.Stops(s) && done == DoneBy(c.b, |c.b.waves|)
    requires Traced(c, s, t, done)
    ensures s == |c.b.nodes| && Same(c.At(s), t)
  {
    hide RunBody, RunWaves, RunNode, RunLoop, RunMatch, RunTail, NodeStep, RoundStep, LaunchTo, FetchOne, Prepare,
      EvalPath, Eval, ApplyPipeline, Vars, KindVars, BodyVars, Uses, RunOrder;
    var q :| TraceInv(c, s, t, done, q);
    forall e: nat | e < |c.b.nodes| && c.b.nodes[e].effect ensures e < q {
      assert InWaves(c.b, |c.b.waves|, e);
      assert e in done;
    }
    if s < |c.b.nodes| { StopIsEffect(c, s); }
    SilentStretch(c, s, q, s);
  }

  lemma FinalBindings(c: Setup, s: nat, t: Run, done: set<NodeId>)
    requires hide *; c.Valid() && c.Stops(s) && s == |c.b.nodes| && done == DoneBy(c.b, |c.b.waves|)
    requires EnvInv(c, s, t.env, done)
    ensures forall i: nat, x: string | i < |c.b.nodes| && InWaves(c.b, |c.b.waves|, i) && x in BindSet(c.b.nodes[i]) ::
              Lookup(c.At(s).env, x) == Lookup(t.env, x)
  {
    hide RunBody, RunWaves, RunNode, RunLoop, RunMatch, RunTail, NodeStep, RoundStep, LaunchTo, FetchOne, Prepare,
      EvalPath, Eval, ApplyPipeline, Vars, KindVars, BodyVars, Uses, RunOrder;
    forall i: nat, x: string | i < |c.b.nodes| && InWaves(c.b, |c.b.waves|, i) && x in BindSet(c.b.nodes[i])
      ensures Lookup(c.At(s).env, x) == Lookup(t.env, x)
    {
      assert i in done;
      BindingStays(c, i, s, x);
    }
  }

  /** The nodes of the first `k` waves. */
  ghost function DoneBy(b: Body, k: nat): set<NodeId> {
    set i: nat | i < |b.nodes| && InWaves(b, k, i)
  }

  ghost function WavesAt(c: Setup, k: nat): Run
    requires k <= |c.b.waves|
  {
    hide *;
    RunWaves(c.p, c.fuel, c.b, k, c.eb, c.hist)
  }

  lemma ScheduledInRange(b: Body, k: nat, d: nat)
    requires Scheduled(b) && InWaves(b, k, d)
    ensures d < |b.nodes|
  {
    var w: nat :| w < k && w < |b.waves| && d in b.waves[w];
    assert DepsBefore(b, w, d);
  }

  /** A wave is ready once the waves before it are done. */
  lemma WaveReady(b: Body, k: nat)
    requires Scheduled(b) && k < |b.waves|
    ensures Distinct(b.waves[k])
    ensures forall i | i in b.waves[k] :: i < |b.nodes| && DepsDone(b, i, DoneBy(b, k))
    ensures DoneBy(b, k + 1) == DoneBy(b, k) + Ids(b.waves[k])
  {
    forall i | i in b.waves[k] ensures i < |b.nodes| && DepsDone(b, i, DoneBy(b, k)) {
      assert DepsBefore(b, k, i);
      forall d | d in b.nodes[i].deps ensures d in DoneBy(b, k) { ScheduledInRange(b, k, d); }
    }
    forall i: nat | i < |b.nodes| ensures InWaves(b, k + 1, i) <==> InWaves(b, k, i) || i in b.waves[k] {
    }
  }

  lemma BeforeWaves(c: Setup, s: nat)
    requires hide RunBody, RunOrder, RunWaves, RunNode, RoundStep, FetchOne, Eval; c.Stops(s)
    ensures Tracks(c, s, WavesAt(c, 0), DoneBy(c.b, 0))
  {
    hide RunNode, RunLoop, RunMatch, LaunchTo, FetchOne, Prepare, Eval, ApplyPipeline, Vars;
    assert DoneBy(c.b, 0) == {};
    ZeroRun(c.p, c.fuel, c.b, c.ea, c.hist);
    hide RunOrder;
    assert TraceInv(c, s, WavesAt(c, 0), {}, 0);
  }

  lemma {:induction false} WavesTrack(c: Setup, s: nat, k: nat)
    requires hide RunBody, RunOrder, RunWaves, RunNode, RoundStep, FetchOne, Eval, Vars, Uses;
             c.Valid() && c.Stops(s) && k <= |c.b.waves|
    ensures Tracks(c, s, WavesAt(c, k), DoneBy(c.b, k))
    decreases c.fuel, c.b, 15, k
  {
    hide *;
    if k == 0 {
      BeforeWaves(c, s);
    } else {
      WavesTrack(c, s, k - 1);
      WaveTracks(c, s, k - 1, WavesAt(c, k - 1));
      WavesUnfold(c, k);
    }
  }

  ghost function AfterRound(c: Setup, k: nat, r: Run): Run
    requires k < |c.b.waves|
  {
    hide *;
    var ids := FetchIds(c.b, c.b.waves[k]);
    RoundStep(c.p, c.b, ids, c.p.world.arrival(ids, r.env), r, c.hist)
  }

  ghost function TailAt(c: Setup, k: nat, j: nat, r: Run): Run
    requires k < |c.b.waves| && j <= |c.b.waves[k]|
  {
    hide *;
    RunTail(c.p, c.fuel, c.b, c.b.waves[k], j, AfterRound(c, k, r), c.hist)
  }

  lemma WavesUnfold(c: Setup, k: nat)
    requires hide *; 0 < k <= |c.b.waves|
    ensures WavesAt(c, k) == TailAt(c, k - 1, |c.b.waves[k - 1]|, WavesAt(c, k - 1))
  {
    hide RunNode, RunLoop, RunMatch, LaunchTo, FetchOne, Prepare, Eval, ApplyPipeline, Vars;
  }

  lemma TailUnfolds(c: Setup, k: nat, j: nat, r: Run)
    requires hide *; k < |c.b.waves| && 0 < j <= |c.b.waves[k]|
    ensures TailAt(c, k, j, r) ==
            (var t, i := TailAt(c, k, j - 1, r), c.b.waves[k][j - 1];
             if IsFetch(c.b, i) || !t.ctl.Next? || i >= |c.b.nodes| then t
             else Append(t, RunNode(c.p, Waves, c.fuel, c.b, c.b.nodes[i], t.env, c.hist + Mutations(t.evs))))
    ensures TailAt(c, k, 0, r) == AfterRound(c, k, r)
  {
    hide RunNode, RunLoop, RunMatch, LaunchTo, FetchOne, Prepare, Eval, ApplyPipeline, Vars;
    var t, i := TailAt(c, k, j - 1, r), c.b.waves[k][j - 1];
    assert TailAt(c, k, j, r) == if IsFetch(c.b, i) then t else NodeStep(c.p, Waves, c.fuel, c.b, i, t, c.hist);
    assert t.ctl.Next? && i < |c.b.nodes| ==>
        NodeStep(c.p, Waves, c.fuel, c.b, i, t, c.hist)
        == Append(t, RunNode(c.p, Waves, c.fuel, c.b, c.b.nodes[i], t.env, c.hist + Mutations(t.evs)));
  }

  /** What is done when the round and the first `j` places of the wave's tail are. */
  ghost function DoneIn(c: Setup, k: nat, j: nat): set<NodeId>
    requires k < |c.b.waves| && j <= |c.b.waves[k]|
  {
    DoneBy(c.b, k) + Ids(FetchIds(c.b, c.b.waves[k])) + Ids(c.b.waves[k][..j])
  }

  lemma {:induction false} WaveTracks(c: Setup, s: nat, k: nat, r: Run)
    requires hide RunBody, RunOrder, RunWaves, RunNode, RoundStep, FetchOne, Eval, Vars, Uses;
             c.Valid() && c.Stops(s) && k < |c.b.waves|
    requires Tracks(c, s, r, DoneBy(c.b, k))
    ensures Tracks(c, s, TailAt(c, k, |c.b.waves[k]|, r), DoneBy(c.b, k + 1))
    decreases c.fuel, c.b, 14, 0
  {
    hide RunNode, RunLoop, RunMatch, LaunchTo, FetchOne, Prepare, ApplyPipeline, Vars, Eval, TailAt, RunOrder,
      EnvInv, TraceInv;
    WaveReady(c.b, k);
    var wave := c.b.waves[k];
    FetchIdsMembers(c.b, wave);
    FetchIdsDistinct(c.b, wave);
    var ids := FetchIds(c.b, wave);
    var before := DoneBy(c.b, k);
    if EnvInv(c, s, r.env, before) && Traced(c, s, r, before) {
      var q :| TraceInv(c, s, r, before, q);
      RoundTracks(c, s, r, before, q, ids, c.p.world.arrival(ids, r.env));
    } else {
      EndedStays(c, s, r);
    }
    assert DoneIn(c, k, 0) == DoneBy(c.b, k) + Ids(ids);
    TailTracks(c, s, k, |wave|, r);
    assert wave[..|wave|] == wave;
    assert DoneIn(c, k, |wave|) == DoneBy(c.b, k + 1);
  }

  /** A run that has ended is not in step with the reference run. */
  lemma EndedStays(c: Setup, s: nat, r: Run)
    requires hide RunBody, RunOrder, RunWaves, RunNode, RoundStep, FetchOne, Eval;
             c.Stops(s) && (r.ctl == Fail(true) || Stopped(c, s, r))
    ensures !r.ctl.Next?
  {
    hide RunBody, RunOrder, RunWaves, RunNode, RunLoop, RunMatch, RunTail, NodeStep, RoundStep, LaunchTo, FetchOne,
      Prepare, EvalPath, Eval, ApplyPipeline, Vars;
  }

  lemma {:induction false} TailTracks(c: Setup, s: nat, k: nat, j: nat, r: Run)
    requires hide RunBody, RunOrder, RunWaves, RunNode, RoundStep, FetchOne, Eval, ApplyPipeline, Vars, Uses;
             c.Valid() && c.Stops(s) && k < |c.b.waves| && j <= |c.b.waves[k]|
    requires Tracks(c, s, AfterRound(c, k, r), DoneIn(c, k, 0))
    ensures Tracks(c, s, TailAt(c, k, j, r), DoneIn(c, k, j))
    decreases c.fuel, c.b, 13, j
  {
    hide RunBody, RunWaves, RunLoop, RunMatch, NodeStep, LaunchTo, FetchOne, Prepare, EvalPath, Eval, ApplyPipeline,
      Vars, KindVars, BodyVars, Uses, Sound, Scheduled, RunOrder, RunTail, RoundStep, RunNode, Observe;
    if j == 0 {
      if |c.b.waves[k]| > 0 { TailUnfolds(c, k, 1, r); } else { TailEmpty(c, k, r); }
    } else {
      TailTracks(c, s, k, j - 1, r);
      TailUnfolds(c, k, j, r);
      TailDone(c, k, j);
      TailStep(c, s, TailAt(c, k, j - 1, r), DoneIn(c, k, j - 1), c.b.waves[k][j - 1]);
    }
  }

  /** Place `j - 1` of a wave's tail adds its node, unless that is one of the round's fetches. */
  lemma TailDone(c: Setup, k: nat, j: nat)
    requires hide *; Scheduled(c.b) && k < |c.b.waves| && 0 < j <= |c.b.waves[k]|
    ensures var i := c.b.waves[k][j - 1];
            i < |c.b.nodes|
            && (IsFetch(c.b, i) ==> DoneIn(c, k, j) == DoneIn(c, k, j - 1))
            && (!IsFetch(c.b, i)
               ==> DoneIn(c, k, j) == DoneIn(c, k, j - 1) + {i}
                   && DepsDone(c.b, i, DoneIn(c, k, j - 1)))
  {
    var wave, i := c.b.waves[k], c.b.waves[k][j - 1];
    WaveReady(c.b, k);
    FetchIdsMembers(c.b, wave);
    assert i in wave && i !in wave[..j - 1];
    assert wave[..j] == wave[..j - 1] + [i];
    assert Ids(wave[..j]) == Ids(wave[..j - 1]) + {i};
  }

  lemma {:induction false} TailStep(c: Setup, s: nat, t: Run, done: set<NodeId>, i: nat)
    requires hide RunBody, RunOrder, RunWaves, RunNode, RoundStep, FetchOne, Eval, ApplyPipeline, Vars, Uses;
             c.Valid() && c.Stops(s) && i < |c.b.nodes| && Tracks(c, s, t, done)
    requires !IsFetch(c.b, i) ==> DepsDone(c.b, i, done)
    ensures !IsFetch(c.b, i) && t.ctl.Next? ==>
              Tracks(c, s, Append(t, RunNode(c.p, Waves, c.fuel, c.b, c.b.nodes[i], t.env, c.hist + Mutations(t.evs))),
                  done + {i})
    ensures !t.ctl.Next? ==> Tracks(c, s, t, done + {i})
    decreases c.fuel, c.b, 12, 1
  {
    hide RunBody, RunWaves, RunLoop, RunMatch, RunTail, NodeStep, RoundStep, LaunchTo, FetchOne, Prepare, EvalPath,
      Eval, ApplyPipeline, Vars, KindVars, BodyVars, Uses, Ready, RunOrder, RunNode, Observe, EnvInv;
    if EnvInv(c, s, t.env, done) && Traced(c, s, t, done) {
      var q :| TraceInv(c, s, t, done, q);
      TracingIsNext(c, s, t, done, q);
      if !IsFetch(c.b, i) { NodeTracks(c, s, t, done, q, i); }
    } else {
      EndedStays(c, s, t);
    }
  }

  lemma TailEmpty(c: Setup, k: nat, r: Run)
    requires hide *; k < |c.b.waves| && |c.b.waves[k]| == 0
    ensures TailAt(c, k, 0, r) == AfterRound(c, k, r)
  {
    hide RunNode, RunLoop, RunMatch, LaunchTo, FetchOne, Prepare, Eval, ApplyPipeline, Vars;
  }

  lemma TracingIsNext(c: Setup, s: nat, r: Run, done: set<NodeId>, q: nat)
    requires hide *; s <= |c.b.nodes| && TraceInv(c, s, r, done, q)
    ensures r.ctl.Next?
  {
    hide RunBody, RunOrder, RunWaves, RunNode, RunLoop, RunMatch, RunTail, NodeStep, RoundStep, LaunchTo, FetchOne,
      Prepare, Eval, ApplyPipeline, Vars;
  }

  /** One node from a tracked state leads to a tracked state. */
  lemma {:induction false} NodeTracks(c: Setup, s: nat, t: Run, done: set<NodeId>, q: nat, i: nat)
    requires hide RunBody, RunOrder, RunWaves, RunNode, RoundStep, FetchOne, Eval, ApplyPipeline, Vars, Uses;
             c.Valid() && c.Stops(s) && t.ctl.Next?
    requires EnvInv(c, s, t.env, done) && TraceInv(c, s, t, done, q)
    requires i < |c.b.nodes| && !IsFetch(c.b, i) && DepsDone(c.b, i, done)
    ensures Tracks(c, s, Append(t, RunNode(c.p, Waves, c.fuel, c.b, c.b.nodes[i], t.env, c.hist + Mutations(t.evs))),
            done + {i})
    decreases c.fuel, c.b, 12, 0
  {
    hide *;
    if c.b.nodes[i].effect { EffectTracks(c, s, t, done, q, i); }
    else { SilentTracks(c, s, t, done, q, i); }
  }

  lemma SilentTracks(c: Setup, s: nat, t: Run, done: set<NodeId>, q: nat, i: nat)
    requires hide RunBody, RunOrder, RunWaves, RunNode, RoundStep, FetchOne, Eval, ApplyPipeline, Vars, Uses;
             c.Valid() && c.Stops(s) && t.ctl.Next?
    requires EnvInv(c, s, t.env, done) && TraceInv(c, s, t, done, q)
    requires i < |c.b.nodes| && !IsFetch(c.b, i) && DepsDone(c.b, i, done) && !c.b.nodes[i].effect
    ensures Tracks(c, s, Append(t, RunNode(c.p, Waves, c.fuel, c.b, c.b.nodes[i], t.env, c.hist + Mutations(t.evs))),
            done + {i})
  {
    hide RunBody, RunWaves, RunLoop, RunMatch, RunTail, NodeStep, RoundStep, LaunchTo, FetchOne, Prepare, EvalPath,
      Eval, ApplyPipeline, Vars, KindVars, BodyVars, Uses, RunNode, RunOrder;
    var n := c.b.nodes[i];
    var h := c.hist + Mutations(t.evs);
    var m := RunNode(c.p, Waves, c.fuel, c.b, n, t.env, h);
    var u := Append(t, m);
    assert QuietKind(n.kind);
    SilentNode(c.p, Waves, c.fuel, c.b, n, t.env, h);
    NodeWithin(c.p, Waves, c.fuel, c.b, n, t.env, h);
    if c.Good() { SilentReached(c, s, i); }
    if i < s { SilentInStep(c, s, t, done, i); }
    if m.ctl.Next? {
      EnvStep(c, s, t.env, done, i, u.env);
      assert u.evs == t.evs;
      assert TraceInv(c, s, u, done + {i}, q);
    }
  }

  /** A node that is not an effect, where the reference run completes it. */
  lemma SilentInStep(c: Setup, s: nat, t: Run, done: set<NodeId>, i: nat)
    requires hide RunBody, RunOrder, RunWaves, RunNode, RoundStep, FetchOne, Eval, ApplyPipeline, Vars, Uses;
             c.Valid() && c.Stops(s) && EnvInv(c, s, t.env, done)
    requires i < s && !IsFetch(c.b, i) && DepsDone(c.b, i, done) && !c.b.nodes[i].effect
    ensures var m := RunNode(c.p, InOrder, 0, c.b, c.b.nodes[i], t.env, []);
            m.ctl.Next? && forall x | x in BindSet(c.b.nodes[i]) :: Lookup(m.env, x) == Lookup(c.At(i + 1).env, x)
  {
    hide RunNode, RunLoop, RunMatch, LaunchTo, FetchOne, Prepare, ApplyPipeline, Vars, Eval, RunOrder;
    var n := c.b.nodes[i];
    NextBefore(c, s, i);
    NextBefore(c, s, i + 1);
    AtStep(c, i);
    ReadsAgree(c, s, t.env, done, i);
    assert QuietKind(n.kind);
    SilentNode(c.p, InOrder, c.fuel, c.b, n, c.At(i).env, HistAt(c, i));
    SilentCtl(c.p, c.b, n, c.At(i).env, t.env);
    forall x | x in BindSet(n)
      ensures Lookup(RunNode(c.p, InOrder, 0, c.b, n, t.env, []).env, x) == Lookup(c.At(i + 1).env, x)
    {
      SilentFrame(c.p, c.b, n, c.At(i).env, t.env, x);
    }
  }

  lemma SilentCtl(p: Prog, b: Body, n: Node, a: Env, e: Env)
    requires hide *; !IsEffect(n.kind) && !n.kind.FetchN? && Agree(a, e, KindVars(n.kind, true))
    ensures RunNode(p, InOrder, 0, b, n, a, []).ctl == RunNode(p, InOrder, 0, b, n, e, []).ctl
  {
    hide FetchOne, Prepare, Eval, ApplyPipeline, Vars;
    match n.kind {
      case LetN(v) => EvalFrame(v, a, e, None);
      case ScatterN(_, _, want) => EvalFrame(want, a, e, None);
      case _ =>
    }
  }

  lemma ReadyNode(c: Setup, i: nat)
    requires hide *; c.Valid() && i < |c.b.nodes|
    ensures c.b.nodes[i].effect == IsEffect(c.b.nodes[i].kind)
            && (c.b.nodes[i].binding.Some? ==> MayBind(c.b.nodes[i].kind))
    ensures ReadyKind(c.b.nodes[i].kind) && (c.late ==> ReturnsLastKind(c.b.nodes[i].kind))
  {
    hide RunBody, RunOrder, RunWaves, RunNode, RunLoop, RunMatch, RunTail, NodeStep, RoundStep, LaunchTo, FetchOne,
      Prepare, EvalPath, Eval, ApplyPipeline, Vars, KindVars, BodyVars, Uses;
    assert c.b.nodes[i] in c.b.nodes;
  }

  /** Where the reference run is when an effect is ready. */
  lemma EffectReady(c: Setup, s: nat, t: Run, done: set<NodeId>, q: nat, i: nat)
    requires hide RunBody, RunOrder, RunWaves, RunNode, RoundStep, FetchOne, Eval, ApplyPipeline, Vars, Uses;
             c.Valid() && c.Stops(s) && EnvInv(c, s, t.env, done) && TraceInv(c, s, t, done, q)
    requires i < |c.b.nodes| && !IsFetch(c.b, i) && DepsDone(c.b, i, done) && c.b.nodes[i].effect
    ensures q <= i <= s && forall j: nat | q <= j < i :: !c.b.nodes[j].effect
    ensures Observe(t.evs) == Observe(c.At(i).evs) && t.ctl == c.At(i).ctl && c.hist + Mutations(t.evs) == HistAt(c, i)
    ensures c.At(i).ctl.Next? && (i < s ==> c.At(i + 1).ctl.Next?)
    ensures c.At(i + 1) == Append(c.At(i), RunNode(c.p, InOrder, c.fuel, c.b, c.b.nodes[i], c.At(i).env, HistAt(c, i)))
    ensures Agree(c.At(i).env, t.env, KindVars(c.b.nodes[i].kind, true))
  {
    hide RunLoop, RunMatch, LaunchTo, FetchOne, Prepare, Eval, ApplyPipeline, Vars, RunOrder, RunNode, EnvInv,
      Observe, Agree, Setup.Valid;
    NextEffect(c, s, t, done, q, i);
    hide TraceInv;
    NextBefore(c, s, i);
    AtStep(c, i);
    ReadsAgree(c, s, t.env, done, i);
    if i < s { NextBefore(c, s, i + 1); }
  }

  lemma {:induction false} EffectTracks(c: Setup, s: nat, t: Run, done: set<NodeId>, q: nat, i: nat)
    requires hide RunBody, RunOrder, RunWaves, RunNode, RoundStep, FetchOne, Eval, ApplyPipeline, Vars, Uses;
             c.Valid() && c.Stops(s) && t.ctl.Next?
    requires EnvInv(c, s, t.env, done) && TraceInv(c, s, t, done, q)
    requires i < |c.b.nodes| && !IsFetch(c.b, i) && DepsDone(c.b, i, done) && c.b.nodes[i].effect
    ensures Tracks(c, s, Append(t, RunNode(c.p, Waves, c.fuel, c.b, c.b.nodes[i], t.env, c.hist + Mutations(t.evs))),
            done + {i})
    decreases c.fuel, c.b, 11, 0
  {
    hide RunBody, RunWaves, RunLoop, RunMatch, RunTail, NodeStep, RoundStep, LaunchTo, FetchOne, Prepare, EvalPath,
      Eval, ApplyPipeline, Vars, BodyVars, Uses, RunOrder, RunNode, Observe, EnvInv, TraceInv, Ready, KindVars,
      ReadyKind, ReturnsLastKind;
    ReadyNode(c, i);
    EffectReady(c, s, t, done, q, i);
    var n, h := c.b.nodes[i], HistAt(c, i);
    var r := RunNode(c.p, InOrder, c.fuel, c.b, n, c.At(i).env, h);
    var m := RunNode(c.p, Waves, c.fuel, c.b, n, t.env, h);
    if m.ctl != Fail(true) || c.Good() {
      ReferenceNodeOk(c, s, i, r);
      hide Tracks, NodeMatches;
      assert n < c.b;
      NodeAgrees(c.p, c.fuel, c.b, n, c.At(i).env, t.env, h, c.late);
      ObserveAppend(c.At(i).evs, r.evs);
      ObserveAppend(t.evs, m.evs);
      NodeWithin(c.p, Waves, c.fuel, c.b, n, t.env, h);
      EffectDone(c, s, t, done, q, i, r, m);
    }
  }

  lemma ReferenceNodeOk(c: Setup, s: nat, i: nat, r: Run)
    requires hide *; c.Valid() && c.Stops(s) && i <= s && i < |c.b.nodes|
    requires c.At(i).ctl.Next? && c.At(i + 1) == Append(c.At(i), r)
    requires i < s ==> c.At(i + 1).ctl.Next?
    ensures r.ctl != Fail(true) && (c.Good() ==> !r.ctl.Fail?)
  {
    hide RunBody, RunWaves, RunNode, RunLoop, RunMatch, RunTail, NodeStep, RoundStep, LaunchTo, FetchOne, Prepare,
      EvalPath, Eval, ApplyPipeline, Vars, KindVars, BodyVars, Uses, RunOrder, Ready;
  }

  lemma EffectDone(c: Setup, s: nat, t: Run, done: set<NodeId>, q: nat, i: nat, r: Run, m: Run)
    requires hide RunBody, RunOrder, RunWaves, RunNode, RoundStep, FetchOne, Eval, Vars, Uses;
             c.Valid() && c.Stops(s) && t.ctl.Next? && EnvInv(c, s, t.env, done) && TraceInv(c, s, t, done, q)
    requires i < |c.b.nodes| && c.b.nodes[i].effect && q <= i <= s && i !in done
    requires forall j: nat | q <= j < i :: !c.b.nodes[j].effect
    requires Observe(t.evs) == Observe(c.At(i).evs) && t.ctl == c.At(i).ctl
    requires c.At(i + 1) == Append(c.At(i), r) && (i < s ==> c.At(i + 1).ctl.Next?)
    requires NodeMatches(c.b.nodes[i], r, m) && Within(t.env, m.env, Writes(c.b.nodes[i]))
    requires Observe(c.At(i).evs + r.evs) == Observe(c.At(i).evs) + Observe(r.evs)
    requires Observe(t.evs + m.evs) == Observe(t.evs) + Observe(m.evs)
    ensures Tracks(c, s, Append(t, m), done + {i})
  {
    hide RunBody, RunWaves, RunNode, RunLoop, RunMatch, RunTail, NodeStep, RoundStep, LaunchTo, FetchOne, Prepare,
      EvalPath, Eval, ApplyPipeline, Vars, KindVars, BodyVars, Uses, RunOrder, Observe, Sound, Scheduled;
    var u := Append(t, m);
    if i < s {
      EnvStep(c, s, t.env, done, i, u.env);
      hide EnvInv;
      assert TraceInv(c, s, u, done + {i}, i + 1);
    } else {
      hide EnvInv;
      assert Stopped(c, s, u);
    }
  }

  // ---------- the theorems ----------

  /** The optimized schedule and program order cannot be told apart by a run in which no node
      fails that is not itself an effect: same log lines, same mutations in the same order, same
      returned value or failure, same values of live bindings. */
  lemma WavesRefineProgramOrder(p: Prog, fuel: nat, b: Body, env: Env, hist: seq<Request>)
    requires hide *; ReadyProg(p) && Ready(b)
    requires RunBody(p, InOrder, fuel, b, env, hist).ctl != Fail(true)
    requires RunBody(p, Waves, fuel, b, env, hist).ctl != Fail(true)
    ensures var r, s := RunBody(p, InOrder, fuel, b, env, hist), RunBody(p, Waves, fuel, b, env, hist);
            && s.ctl == r.ctl
            && Observe(s.evs) == Observe(r.evs)
            && (r.ctl.Next? ==>
                  forall i: nat, x: string | i < |b.nodes| && InWaves(b, |b.waves|, i) && x in BindSet(b.nodes[i]) ::
                    Lookup(s.env, x) == Lookup(r.env, x))
  {
    hide RunOrder, RunWaves, RunNode, RunLoop, RunMatch, RunTail, NodeStep, RoundStep, LaunchTo, FetchOne, Prepare,
      EvalPath, Eval, ApplyPipeline, Vars, KindVars, BodyVars, Uses, RunBody;
    BodyAgrees(p, fuel, b, env, env, hist, false);
  }

  /** When every body returns, if at all, in its last statement, the schedule introduces no
      failure: what succeeds in program order succeeds in waves, with the same behaviour. */
  lemma WavesIntroduceNoFailure(p: Prog, fuel: nat, b: Body, env: Env, hist: seq<Request>)
    requires ReadyProg(p) && Ready(b) && LateProg(p) && ReturnsLast(b)
    requires !RunBody(p, InOrder, fuel, b, env, hist).ctl.Fail?
    ensures var r, s := RunBody(p, InOrder, fuel, b, env, hist), RunBody(p, Waves, fuel, b, env, hist);
            s.ctl == r.ctl && Observe(s.evs) == Observe(r.evs)
  {
    hide RunBody, RunOrder, RunWaves, RunNode, RunLoop, RunMatch, RunTail, NodeStep, RoundStep, LaunchTo, FetchOne,
      Prepare, EvalPath, Eval, ApplyPipeline, Vars, KindVars, BodyVars, Uses;
    BodyAgrees(p, fuel, b, env, env, hist, true);
  }
}
