/** What a fetch depends on, and which names a run may overwrite. */
module FetchFrames {
  import opened Wrappers
  import opened Ast
  import opened Values
  import opened Evaluator
  import opened Frames
  import opened Ir
  import opened Exec

  lemma {:induction false} PathFrame(path: seq<PathSeg>, a: Env, b: Env)
    requires Agree(a, b, PathVars(path, true))
    ensures EvalPath(path, a) == EvalPath(path, b)
  {
    hide Eval, Vars;
    if path != [] {
      if path[0].Param? { EvalFrame(path[0].e, a, b, None); }
      PathFrame(path[1..], a, b);
    }
  }

  lemma {:induction false} ParamsFrame(params: seq<FieldInit>, a: Env, b: Env)
    requires Agree(a, b, FieldsVars(params, true))
    ensures EvalParams(params, a) == EvalParams(params, b)
  {
    hide Eval, Vars;
    if params != [] {
      EvalFrame(params[0].value, a, b, None);
      ParamsFrame(params[1..], a, b);
    }
  }

  lemma {:induction false} TextsFrame(es: seq<Expr>, a: Env, b: Env)
    requires Agree(a, b, ExprsVars(es, true))
    ensures EvalTexts(es, a) == EvalTexts(es, b)
  {
    hide Eval, Vars;
    if es != [] {
      EvalFrame(es[0], a, b, None);
      TextsFrame(es[1..], a, b);
    }
  }

  lemma {:induction false} KeysFrame(m: MappedIds, items: seq<Value>, a: Env, b: Env)
    requires Agree(a, b, Vars(m.key, true) - {m.loopVar})
    ensures EvalKeys(m, items, a) == EvalKeys(m, items, b)
  {
    hide Eval, Vars;
    if items != [] {
      AgreeInsert(a, b, Vars(m.key, true), m.loopVar, items[0]);
      EvalFrame(m.key, Insert(a, m.loopVar, items[0]), Insert(b, m.loopVar, items[0]), Some(items[0]));
      KeysFrame(m, items[1..], a, b);
    }
  }

  lemma IdsFrame(batch: Option<BatchSpec>, a: Env, b: Env)
    requires hide *; batch.Some? ==> Agree(a, b, BatchVars(batch.value, true))
    ensures EvalIds(batch, a) == EvalIds(batch, b)
  {
    hide Eval, Vars;
    if batch.Some? {
      TextsFrame(batch.value.ids, a, b);
      if batch.value.mapped.Some? {
        var m := batch.value.mapped.value;
        EvalFrame(m.coll, a, b, None);
        var c := Eval(m.coll, a, None);
        if c.val.Some? { KeysFrame(m, c.val.value.Items(), a, b); }
      }
    }
  }

  lemma OptFrame(e: Option<Expr>, a: Env, b: Env)
    requires Agree(a, b, OptVars(e, true))
    ensures EvalOpt(e, a) == EvalOpt(e, b)
  {
    hide Eval, Vars;
    if e.Some? { EvalFrame(e.value, a, b, None); }
  }

  lemma {:induction false} ArgsFrame(args: seq<Expr>, a: Env, b: Env)
    requires Agree(a, b, ExprsVars(args, true))
    ensures ArgValues(args, a) == ArgValues(args, b)
  {
    hide Eval, Vars;
    if args != [] {
      EvalFrame(args[0], a, b, None);
      ArgsFrame(args[1..], a, b);
    }
  }

  lemma PrepareFrame(f: FetchIr, a: Env, b: Env)
    requires Agree(a, b, FetchVars(f, true))
    ensures Prepare(f, a) == Prepare(f, b)
  {
    hide Eval;
    PathFrame(f.path, a, b);
    ParamsFrame(f.params, a, b);
    IdsFrame(f.batch, a, b);
    OptFrame(f.body, a, b);
    OptFrame(f.idempotencyKey, a, b);
  }

  /** A fetch sends the same request and binds the same value in environments that agree on its
      variables. */
  lemma FetchFrame(w: World, f: FetchIr, a: Env, b: Env, hist: seq<Request>)
    requires Agree(a, b, FetchVars(f, true))
    ensures FetchOne(w, f, a, hist) == FetchOne(w, f, b, hist)
  {
    hide Eval, ApplyPipeline;
    PrepareFrame(f, a, b);
    var plan := Prepare(f, a);
    if plan.val.Some? && plan.val.value.Some? {
      var o := Answer(w, hist, plan.val.value.value);
      if o.Success? { PipelineFrame(o.v, f.pipeline, a, b); }
    }
  }

  lemma PrepareMethod(f: FetchIr, env: Env)
    ensures hide *; Prepare(f, env).val.Some? && Prepare(f, env).val.value.Some? ==>
              Prepare(f, env).val.value.value.httpMethod == f.httpMethod
              && Prepare(f, env).val.value.value.endpoint == f.endpoint
  {
    hide Eval;
  }

  /** A GET does not see the requests sent before it. */
  lemma GetIgnoresHistory(w: World, f: FetchIr, env: Env, h1: seq<Request>, h2: seq<Request>)
    requires hide *; f.httpMethod == "GET"
    ensures FetchOne(w, f, env, h1) == FetchOne(w, f, env, h2)
    ensures FetchOne(w, f, env, h1).sent.Some? ==> FetchOne(w, f, env, h1).sent.value.req.httpMethod == "GET"
  {
    hide Eval, ApplyPipeline;
    PrepareMethod(f, env);
  }

  // ---------- what a run overwrites ----------

  /** `b` differs from `a` at most on `names`. */
  ghost predicate Within(a: Env, b: Env, names: set<string>) {
    a.os == b.os && forall x | x !in names :: Lookup(b, x) == Lookup(a, x)
  }

  lemma {:induction false} PatternCaptures(p: Pattern)
    ensures Captures(p) <= PatternBinds(p)
  {
    match p {
      case Ctor(name, args) =>
        if args != [] {
          PatternCaptures(args[0]);
          if args[0].Ctor? && args[0].args != [] { PatternCaptures(args[0].args[0]); }
        }
      case _ =>
    }
  }

  lemma {:induction false} NodeWritesIn(nodes: seq<Node>, i: nat)
    requires hide *; i < |nodes|
    ensures Writes(nodes[i]) <= NodesWrites(nodes)
  {
    if i > 0 { NodeWritesIn(nodes[1..], i - 1); }
  }

  lemma {:induction false} ArmLeaksIn(arms: seq<ArmIr>, arm: ArmIr)
    requires hide *; arm in arms
    ensures PatternBinds(arm.pattern) <= ArmsLeaks(arms)
    ensures arm.body.BodyArm? ==> BodyWrites(arm.body.b) <= ArmsLeaks(arms)
  {
    if arm != arms[0] { ArmLeaksIn(arms[1..], arm); }
  }

  lemma {:induction false} CollectWithin(b: Body, ids: seq<NodeId>, k: nat, vals: map<NodeId, Option<Value>>, r: Run)
    requires hide *; k <= |ids|
    ensures Within(r.env, Collect(b, ids, k, vals, r).env, BodyWrites(b))
  {
    hide Vars;
    if k > 0 {
      CollectWithin(b, ids, k - 1, vals, r);
      if IsFetch(b, ids[k - 1]) { NodeWritesIn(b.nodes, ids[k - 1]); }
    }
  }

  lemma RoundWithin(p: Prog, b: Body, ids: seq<NodeId>, arrive: seq<NodeId>, r: Run, hist: seq<Request>)
    ensures Within(r.env, RoundStep(p, b, ids, arrive, r, hist).env, BodyWrites(b))
  {
    hide LaunchTo, FetchOne, Prepare, Eval, ApplyPipeline, Vars;
    if r.ctl.Next? {
      var l := LaunchTo(p.world, b, arrive, |arrive|, r.env, hist + Mutations(r.evs));
      CollectWithin(b, ids, |ids|, l.vals, r.(evs := r.evs + LaunchEvents(l)));
    }
  }

  lemma {:induction false} BodyWithin(p: Prog, mode: Mode, fuel: nat, b: Body, env: Env, hist: seq<Request>)
    ensures Within(env, RunBody(p, mode, fuel, b, env, hist).env, BodyWrites(b))
    decreases fuel, b, 9, 0
  {
    hide RunNode, RunLoop, RunMatch, LaunchTo, FetchOne, Prepare, Eval, ApplyPipeline, Vars;
    if mode.InOrder? { OrderWithin(p, fuel, b, |b.nodes|, env, hist); }
    else { WavesWithin(p, fuel, b, |b.waves|, env, hist); }
  }

  lemma {:induction false} OrderWithin(p: Prog, fuel: nat, b: Body, k: nat, env: Env, hist: seq<Request>)
    requires hide *; k <= |b.nodes|
    ensures Within(env, RunOrder(p, fuel, b, k, env, hist).env, BodyWrites(b))
    decreases fuel, b, 8, k
  {
    hide RunNode, RunLoop, RunMatch, LaunchTo, FetchOne, Prepare, Eval, ApplyPipeline, Vars;
    if k > 0 {
      OrderWithin(p, fuel, b, k - 1, env, hist);
      var r := RunOrder(p, fuel, b, k - 1, env, hist);
      if IsFetch(b, k - 1) { RoundWithin(p, b, [k - 1], [k - 1], r, hist); }
      else { StepWithin(p, InOrder, fuel, b, k - 1, r, hist); }
    }
  }

  lemma {:induction false} WavesWithin(p: Prog, fuel: nat, b: Body, k: nat, env: Env, hist: seq<Request>)
    requires hide *; k <= |b.waves|
    ensures Within(env, RunWaves(p, fuel, b, k, env, hist).env, BodyWrites(b))
    decreases fuel, b, 8, k
  {
    hide RunNode, RunLoop, RunMatch, LaunchTo, FetchOne, Prepare, Eval, ApplyPipeline, Vars;
    if k > 0 {
      WavesWithin(p, fuel, b, k - 1, env, hist);
      var r := RunWaves(p, fuel, b, k - 1, env, hist);
      var wave := b.waves[k - 1];
      var ids := FetchIds(b, wave);
      RoundWithin(p, b, ids, p.world.arrival(ids, r.env), r, hist);
      var s := RoundStep(p, b, ids, p.world.arrival(ids, r.env), r, hist);
      TailWithin(p, fuel, b, wave, |wave|, s, hist);
    }
  }

  lemma {:induction false} TailWithin(p: Prog, fuel: nat, b: Body, wave: seq<NodeId>, k: nat, s: Run,
      hist: seq<Request>)
    requires hide *; k <= |wave|
    ensures Within(s.env, RunTail(p, fuel, b, wave, k, s, hist).env, BodyWrites(b))
    decreases fuel, b, 7, k
  {
    hide RunNode, RunLoop, RunMatch, LaunchTo, FetchOne, Prepare, Eval, ApplyPipeline, Vars;
    if k > 0 {
      TailWithin(p, fuel, b, wave, k - 1, s, hist);
      StepWithin(p, Waves, fuel, b, wave[k - 1], RunTail(p, fuel, b, wave, k - 1, s, hist), hist);
    }
  }

  lemma {:induction false} StepWithin(p: Prog, mode: Mode, fuel: nat, b: Body, id: NodeId, r: Run, hist: seq<Request>)
    ensures Within(r.env, NodeStep(p, mode, fuel, b, id, r, hist).env, BodyWrites(b))
    decreases fuel, b, 6, 0
  {
    hide RunNode, RunLoop, RunMatch, LaunchTo, FetchOne, Prepare, Eval, ApplyPipeline, Vars;
    if r.ctl.Next? && id < |b.nodes| {
      NodeWithin(p, mode, fuel, b, b.nodes[id], r.env, hist + Mutations(r.evs));
      NodeWritesIn(b.nodes, id);
    }
  }

  /** A node overwrites at most its binding and the names it leaks. */
  lemma {:induction false} NodeWithin(p: Prog, mode: Mode, fuel: nat, b: Body, n: Node, env: Env, hist: seq<Request>)
    ensures Within(env, RunNode(p, mode, fuel, b, n, env, hist).env, Writes(n))
    decreases fuel, n, 5, 0
  {
    hide FetchOne, Prepare, ApplyPipeline, Vars, RetryTarget, RunBody, ArmsLeaks, Eval, RunMatch, RunLoop;
    match n.kind {
      case MatchN(m) => MatchWithin(p, mode, fuel, m, b, env, hist, MAX_RETRIES);
      case ForEachN(fe) =>
        var v := Eval(fe.iter, env, None);
        if v.val.Some? {
          var items := v.val.value.Items();
          LoopWithin(p, mode, fuel, fe, items, |items|, env, hist);
        }
      case ExprN(e) => assert RunExpr(p, mode, fuel, n, e, env, hist).env == env;
      case _ =>
    }
  }

  lemma {:induction false} MatchWithin(p: Prog, mode: Mode, fuel: nat, m: MatchIr, b: Body, env: Env,
      hist: seq<Request>, attempts: nat)
    ensures Within(env, RunMatch(p, mode, fuel, m, b, env, hist, attempts).env, ArmsLeaks(m.arms) + RetryTarget(m))
    decreases fuel, m, 3, attempts
  {
    hide Prepare, ApplyPipeline, Vars, ArmsLeaks, Eval, MatchPattern, FetchOne, FirstArm;
    var v := Eval(m.scrutinee, env, None);
    if v.val.Some? && attempts > 0 {
      FirstArmIn(m.arms, v.val.value);
      var chosen := FirstArm(m.arms, v.val.value);
      if chosen.Some? {
        var arm := chosen.value;
        var binds := MatchPattern(arm.pattern, v.val.value).value;
        var inner := InsertAll(env, binds);
        MatchCaptures(arm.pattern, v.val.value);
        PatternCaptures(arm.pattern);
        ArmLeaksIn(m.arms, arm);
        assert Within(env, inner, ArmsLeaks(m.arms));
        match arm.body {
          case ValueArm(_) =>
          case BodyArm(body) =>
            assert arm.body < arm;
            BodyWithin(p, mode, fuel, body, inner, hist);
          case RetryArm(effects) =>
            var first := Refetch(p.world, m, b, inner, hist);
            assert Within(env, first.env, ArmsLeaks(m.arms) + RetryTarget(m));
            if first.ctl.Next? && RunEffects(effects, inner).val.Some? {
              MatchWithin(p, mode, fuel, m, b, first.env, hist + Mutations(first.evs), attempts - 1);
            }
        }
      }
    }
  }

  lemma {:induction false} LoopWithin(p: Prog, mode: Mode, fuel: nat, fe: ForEachIr, items: seq<Value>, k: nat,
      env: Env, hist: seq<Request>)
    requires hide *; k <= |items|
    ensures Within(env, RunLoop(p, mode, fuel, fe, items, k, env, hist).env, {fe.loopVar} + BodyWrites(fe.body))
    decreases fuel, fe, 3, k
  {
    hide FetchOne, Prepare, Eval, ApplyPipeline, Vars;
    if k > 0 {
      LoopWithin(p, mode, fuel, fe, items, k - 1, env, hist);
      var r := RunLoop(p, mode, fuel, fe, items, k - 1, env, hist);
      if r.ctl.Next? {
        BodyWithin(p, mode, fuel, fe.body, Insert(r.env, fe.loopVar, items[k - 1]), hist + Mutations(r.evs));
      }
    }
  }
}
