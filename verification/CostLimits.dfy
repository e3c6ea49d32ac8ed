/** Where the cost analysis stops being a bound: families of programs that its side conditions
    shut out. */
module CostLimits {
  import opened Wrappers
  import opened Ast
  import opened Values
  import opened Evaluator
  import opened Ir
  import opened Exec
  import opened Traces
  import opened Costs
  import opened Dependencies
  import opened Schedule
  import opened Metering

  function Send(endpoint: string, asResult: bool): FetchIr {
    FetchIr("POST", endpoint, [], [], None, None, None, None, [], asResult, None)
  }

  function SendNode(id: nat): Node {
    Node(id, FetchN(Send("A", false)), None, {}, if id == 0 then {} else {id - 1}, true, true)
  }

  function Sending(endpoint: string): Request { Request("POST", endpoint, "/", multiset{}, None, None) }

  /** What a plain POST does. */
  lemma SendOnce(w: World, endpoint: string, asResult: bool, env: Env, hist: seq<Request>)
    ensures var o, r := w.mutate(hist, Sending(endpoint)), FetchOne(w, Send(endpoint, asResult), env, hist);
            && r.before == [] && r.after == [] && r.sent == Some(Sent(Sending(endpoint), None))
            && r.val == (match o
                         case Success(v) => Some(if asResult then Value.Ok(v) else v)
                         case Failure(e) => if asResult then Some(Value.Err(e)) else None)
  {
    var f := Send(endpoint, asResult);
    assert EvalIds(f.batch, env) == Done(Some([]));
    assert EvalParams(f.params, env) == Done(multiset{});
    assert EvalOpt(None, env) == Done(None);
    var none: multiset<(string, string)> := multiset{};
    assert none + none == none;
    assert Prepare(f, env).val == Some(Some(Sending(endpoint))) && Prepare(f, env).out == [];
    var o := w.mutate(hist, Sending(endpoint));
    if o.Success? { assert ApplyPipeline(o.v, [], env) == Done(o.v); }
  }

  /** Requests arrive in program order. */
  ghost predicate InOrderArrival(w: World) {
    forall ids: seq<NodeId>, env: Env :: w.arrival(ids, env) == ids
  }

  /** A wave that holds nothing but one plain POST. */
  lemma SendWave(p: Prog, fuel: nat, b: Body, k: nat, endpoint: string, asResult: bool, env: Env, hist: seq<Request>)
    requires hide *; InOrderArrival(p.world) && k < |b.waves| && b.waves[k] == [k] && k < |b.nodes|
    requires b.nodes[k].kind == FetchN(Send(endpoint, asResult))
    requires RunWaves(p, fuel, b, k, env, hist).ctl.Next?
    ensures var r := RunWaves(p, fuel, b, k, env, hist);
            var one := FetchOne(p.world, Send(endpoint, asResult), r.env, hist + Mutations(r.evs));
            RunWaves(p, fuel, b, k + 1, env, hist)
            == (if one.val.None? then Run(r.env, r.evs + FetchEvents(one), Fail(!b.nodes[k].effect))
                else Run(BindTo(r.env, b.nodes[k].binding, one.val.value), r.evs + FetchEvents(one), r.ctl))
  {
    hide RunNode, RunLoop, RunMatch, LaunchTo, Prepare, Eval, ApplyPipeline, DepsOf, FetchOne;
    var r := RunWaves(p, fuel, b, k, env, hist);
    assert FetchIds(b, []) == [];
    assert FetchIds(b, [k]) == [k];
    SingleRound(p, b, k, r, hist);
    var s := RoundStep(p, b, [k], [k], r, hist);
    assert RunTail(p, fuel, b, [k], 1, s, hist) == s;
  }

  lemma SentEvents(x: Sent)
    ensures var evs := FetchEvents(Fetched([], Some(x), [], None));
            evs == [Round([x])] && Sends(evs) == 1 && Rounds(evs) == 1
            && Mutations(evs) == if x.req.httpMethod != "GET" then [x.req] else []
  {
    var evs := FetchEvents(Fetched([], Some(x), [], None));
    assert evs == [Round([x])];
    assert evs[..0] == [] && [x][..0] == [];
    assert MutationsOf([]) == [] && Mutations([]) == [];
    assert MutationsOf([x]) == if x.req.httpMethod != "GET" then [x.req] else [];
    assert Mutations(evs) == Mutations([]) + MutationsOf([x]);
  }

  function SentValue(w: World, endpoint: string, asResult: bool, hist: seq<Request>): Option<Value> {
    match w.mutate(hist, Sending(endpoint))
    case Success(v) => Some(if asResult then Value.Ok(v) else v)
    case Failure(e) => if asResult then Some(Value.Err(e)) else None
  }

  /** One wave of one plain POST that binds a value: one more request, and one more mutation. */
  lemma SendStep(p: Prog, fuel: nat, b: Body, k: nat, endpoint: string, asResult: bool, env: Env, hist: seq<Request>)
    requires hide *; InOrderArrival(p.world) && k < |b.waves| && b.waves[k] == [k] && k < |b.nodes|
    requires b.nodes[k].kind == FetchN(Send(endpoint, asResult))
    requires RunWaves(p, fuel, b, k, env, hist).ctl.Next?
    requires SentValue(p.world, endpoint, asResult, hist + Mutations(RunWaves(p, fuel, b, k, env, hist).evs)).Some?
    ensures var r, s := RunWaves(p, fuel, b, k, env, hist), RunWaves(p, fuel, b, k + 1, env, hist);
            && s.env == BindTo(r.env, b.nodes[k].binding,
               SentValue(p.world, endpoint, asResult, hist + Mutations(r.evs)).value)
            && s.ctl == r.ctl && |Mutations(s.evs)| == |Mutations(r.evs)| + 1
            && Sends(s.evs) == Sends(r.evs) + 1 && Rounds(s.evs) == Rounds(r.evs) + 1
  {
    hide RunBody, RunOrder, RunNode, RunLoop, RunMatch, NodeStep, LaunchTo, Prepare, EvalPath, Eval, ApplyPipeline,
      DepsOf, Mutations, Rounds, Sends, RunTail, RoundStep;
    var r := RunWaves(p, fuel, b, k, env, hist);
    var h := hist + Mutations(r.evs);
    SendWave(p, fuel, b, k, endpoint, asResult, env, hist);
    hide RunWaves;
    SendOnce(p.world, endpoint, asResult, r.env, h);
    var one := FetchOne(p.world, Send(endpoint, asResult), r.env, h);
    hide FetchOne;
    SentEvents(one.sent.value);
    assert FetchEvents(one) == FetchEvents(Fetched([], one.sent, [], None));
    MetersAppend(r.evs, FetchEvents(one), x => 0);
    MutationsAppend(r.evs, FetchEvents(one));
  }

  // ---------- recursion ----------

  /** `flow f { POST A /   f() }` */
  function Looping(): Body {
    hide *;
    Body([SendNode(0), Node(1, ExprN(Expr.Call(Ident("f"), [])), None, {}, {0}, true, true)], [[0], [1]])
  }

  lemma LoopingCost()
    ensures var c := RequestCost(Looping(), [Flow("f", [], Looping())]);
            c.requests == 2 && !c.unbounded
  {
    var flows, b := [Flow("f", [], Looping())], Looping();
    var call := b.nodes[1].kind.value;
    assert CallName(call) == Some("f") && FindFlow(flows, "f") == Some(flows[0]);
    assert CallCost(flows, call, ["f"]) == ZERO;
    assert NodeCost(flows, b, 0, ["f"]).requests == 1;
    assert NodeCost(flows, b, 1, ["f"]) == ZERO;
    assert NodesCost(flows, b, 0, ["f"]) == ZERO;
    assert NodesCost(flows, b, 1, ["f"]).requests == 1;
    assert BodyCost(flows, b, ["f"]).requests == 1 && !BodyCost(flows, b, ["f"]).unbounded;
    assert [] + ["f"] == ["f"];
    assert CallCost(flows, call, []) == BodyCost(flows, b, ["f"]);
    assert NodeCost(flows, b, 0, []).requests == 1;
    assert NodesCost(flows, b, 0, []) == ZERO;
    assert NodesCost(flows, b, 1, []).requests == 1;
  }

  lemma EmptyRound(p: Prog, b: Body, r: Run, hist: seq<Request>)
    requires InOrderArrival(p.world)
    ensures RoundStep(p, b, [], p.world.arrival([], r.env), r, hist) == r
  {
    hide FetchOne, Prepare, Eval, ApplyPipeline;
    if r.ctl.Next? {
      var l := LaunchTo(p.world, b, [], 0, r.env, hist + Mutations(r.evs));
      assert LaunchEvents(l) == [];
      assert r.(evs := r.evs + []) == r;
    }
  }

  /** A wave that holds one node which is not a fetch. */
  lemma OneNodeWave(p: Prog, fuel: nat, b: Body, k: nat, i: nat, env: Env, hist: seq<Request>)
    requires hide *;
             InOrderArrival(p.world) && k < |b.waves| && b.waves[k] == [i] && i < |b.nodes| && !b.nodes[i].kind.FetchN?
    requires RunWaves(p, fuel, b, k, env, hist).ctl.Next?
    ensures var r := RunWaves(p, fuel, b, k, env, hist);
            RunWaves(p, fuel, b, k + 1, env, hist)
            == Append(r, RunNode(p, Waves, fuel, b, b.nodes[i], r.env, hist + Mutations(r.evs)))
  {
    hide RunLoop, RunMatch, LaunchTo, FetchOne, Prepare, Eval, ApplyPipeline, DepsOf, RunNode, RoundStep;
    var r := RunWaves(p, fuel, b, k, env, hist);
    assert FetchIds(b, []) == [];
    assert FetchIds(b, [i]) == [];
    EmptyRound(p, b, r, hist);
    assert RunTail(p, fuel, b, [i], 0, r, hist) == r;
    assert RunTail(p, fuel, b, [i], 1, r, hist) == NodeStep(p, Waves, fuel, b, i, r, hist);
  }

  lemma CallNode(p: Prog, fuel: nat, env: Env, hist: seq<Request>)
    requires hide RunBody, RunOrder, RunWaves, RunNode, RoundStep, FetchOne, Eval, ApplyPipeline;
             p.flows == [Flow("f", [], Looping())]
    ensures RunNode(p, Waves, fuel, Looping(), Looping().nodes[1], env, hist).evs
         == if fuel == 0 then [] else RunBody(p, Waves, fuel - 1, Looping(), Env(map[], env.os), hist).evs
  {
    hide FetchOne, Prepare, Eval, ApplyPipeline, RunBody;
    var n := Looping().nodes[1];
    var e := n.kind.value;
    assert CallName(e) == Some("f") && FindFlow(p.flows, "f") == Some(p.flows[0]);
    assert ArgValues([], env) == Done([]);
    assert Prints([]) == [];
    assert ParamEnv([], []) == map[];
    if fuel > 0 {
      var r := CallFlow(p, Waves, fuel - 1, p.flows[0], [], env, hist);
      assert r.evs == RunBody(p, Waves, fuel - 1, Looping(), Env(map[], env.os), hist).evs;
      hide CallFlow;
      assert RunExpr(p, Waves, fuel, n, e, env, hist).evs == Prints([]) + r.evs;
      assert Prints([]) + r.evs == r.evs;
    }
  }

  /** The reported total for a recursive flow is 2, and it is not flagged, yet a run that recurses
      `fuel` deep sends `fuel + 1` requests.  The total bounds the runs that recurse at most once. */
  lemma {:induction false} RecursionIsNotCounted(p: Prog, fuel: nat, env: Env, hist: seq<Request>)
    requires p.flows == [Flow("f", [], Looping())] && InOrderArrival(p.world)
    requires forall h, r :: p.world.mutate(h, r) == Success(Value.Null)
    ensures RequestCost(Looping(), p.flows).requests == 2 && !RequestCost(Looping(), p.flows).unbounded
    ensures Sends(RunBody(p, Waves, fuel, Looping(), env, hist).evs) == fuel + 1
    ensures Sends(RunBody(p, Waves, fuel, Looping(), env, hist).evs) <= RequestCost(Looping(), p.flows).requests
            <==> fuel <= 1
    decreases fuel
  {
    hide RunLoop, RunMatch, LaunchTo, Prepare, Eval, ApplyPipeline, DepsOf, RoundStep, NodeStep, RunTail, RunOrder,
      RequestCost, RunNode, FetchOne, Mutations;
    LoopingCost();
    var b := Looping();
    assert RunWaves(p, fuel, b, 0, env, hist) == Start(env);
    assert RunBody(p, Waves, fuel, b, env, hist) == RunWaves(p, fuel, b, 2, env, hist);
    assert b.waves[0] == [0] && b.waves[1] == [1] && b.nodes[1].kind.ExprN? && b.nodes[0] == SendNode(0);
    hide RunWaves, RunBody, Looping;
    SendStep(p, fuel, b, 0, "A", false, env, hist);
    var r := RunWaves(p, fuel, b, 1, env, hist);
    var h := hist + Mutations(r.evs);
    OneNodeWave(p, fuel, b, 1, 1, env, hist);
    CallNode(p, fuel, r.env, h);
    if fuel > 0 { RecursionIsNotCounted(p, fuel - 1, Env(map[], r.env.os), h); }
    SendsAppend(r.evs, RunNode(p, Waves, fuel, b, b.nodes[1], r.env, h).evs);
  }

  // ---------- retries ----------

  /** `k` POSTs, one after the other. */
  function Burst(k: nat): Body {
    hide *;
    Body(seq(k, i requires 0 <= i < k => SendNode(i)), seq(k, i requires 0 <= i < k => [i]))
  }

  function Scrutiny(k: nat): MatchIr {
    MatchIr(Ident("r"), [ArmIr(Ctor("Err", [Wildcard]), RetryArm([])),
        ArmIr(Ctor("Ok", [Wildcard]), BodyArm(Burst(k)))])
  }

  /** `r: Result = POST R /   match r { Err(_) => retry, Ok(_) => { k POSTs } }` */
  function Persistent(k: nat): Body {
    hide *;
    Body([Node(0, FetchN(Send("R", true)), Some("r"), {}, {}, true, true),
          Node(1, MatchN(Scrutiny(k)), None, {"r"}, {0}, true, true)], [[0], [1]])
  }

  lemma {:induction false} BurstCost(flows: seq<Flow>, k: nat, j: nat, visiting: seq<string>)
    requires j <= k
    ensures NodesCost(flows, Burst(k), j, visiting).requests == j && !NodesCost(flows, Burst(k), j, visiting).unbounded
  {
    if j > 0 {
      BurstCost(flows, k, j - 1, visiting);
      assert NodeCost(flows, Burst(k), j - 1, visiting) == Cost(1, 0, 1, None, false);
    }
  }

  lemma PersistentCost(flows: seq<Flow>, k: nat)
    ensures hide *;
            RequestCost(Persistent(k), flows).requests == 1 + Max(5, k) && !RequestCost(Persistent(k), flows).unbounded
  {
    var b, m := Persistent(k), Scrutiny(k);
    BurstCost(flows, k, k, []);
    hide NodesCost;
    assert |Burst(k).nodes| == k;
    assert ArmCost(flows, m.arms[1], []).requests == k && !ArmCost(flows, m.arms[1], []).unbounded;
    assert ArmCost(flows, m.arms[0], []) == Cost(5, 1, 5, Some(0), false);
    hide BodyCost;
    assert ArmsCost(flows, m.arms, 0, []) == ZERO;
    assert ArmsCost(flows, m.arms, 1, []).requests == 5;
    assert ArmsCost(flows, m.arms, 2, []).requests == Max(5, k) && !ArmsCost(flows, m.arms, 2, []).unbounded;
    MatchAfterFetch(flows, b, m);
  }

  lemma MatchAfterFetch(flows: seq<Flow>, b: Body, m: MatchIr)
    requires hide *; |b.nodes| == 2 && b.nodes[0].live && b.nodes[0].kind.FetchN? && b.nodes[1].live
             && b.nodes[1].kind == MatchN(m)
    ensures RequestCost(b, flows).requests == 1 + ArmsCost(flows, m.arms, |m.arms|, []).requests
    ensures RequestCost(b, flows).unbounded == ArmsCost(flows, m.arms, |m.arms|, []).unbounded
  {
    hide ArmsCost;
    assert NodesCost(flows, b, 0, []) == ZERO;
    assert KindCost(flows, b.nodes[0].kind, []).requests == 1 && !KindCost(flows, b.nodes[0].kind, []).unbounded;
    assert NodeCost(flows, b, 0, []) == KindCost(flows, b.nodes[0].kind, []);
    assert NodesCost(flows, b, 1, []).requests == 1 && !NodesCost(flows, b, 1, []).unbounded;
    var c := ArmsCost(flows, m.arms, |m.arms|, []);
    assert NodeCost(flows, b, 1, []) == c;
    assert NodesCost(flows, b, 2, []).requests == 1 + c.requests;
    hide NodesCost, WavesCost;
  }

  /** The endpoint `R` fails until four requests have been sent; nothing else fails. */
  ghost predicate Reluctant(w: World, e: ErrValue) {
    forall h: seq<Request>, r: Request ::
      w.mutate(h, r) == if r.endpoint == "R" && |h| < 4 then Failure(e) else Success(Value.Null)
  }

  lemma {:induction false} BurstSends(p: Prog, fuel: nat, k: nat, j: nat, env: Env, hist: seq<Request>, e: ErrValue)
    requires hide RunBody, RunWaves, RunNode, RoundStep, FetchOne, Eval, ApplyPipeline;
             j <= k && InOrderArrival(p.world) && Reluctant(p.world, e)
    ensures var r := RunWaves(p, fuel, Burst(k), j, env, hist);
            r.ctl == Next(None) && Sends(r.evs) == j
  {
    hide RunNode, RunLoop, RunMatch, LaunchTo, FetchOne, Prepare, Eval, ApplyPipeline, DepsOf, RunTail, RoundStep;
    if j > 0 {
      BurstSends(p, fuel, k, j - 1, env, hist, e);
      SendStep(p, fuel, Burst(k), j - 1, "A", false, env, hist);
    }
  }

  lemma RefetchR(w: World, k: nat, env: Env, hist: seq<Request>)
    ensures hide FetchOne, Eval, ApplyPipeline; Refetch(w, Scrutiny(k), Persistent(k), env, hist)
         == Run(Insert(env, "r", SentValue(w, "R", true, hist).value), [Round([Sent(Sending("R"), None)])], Next(None))
  {
    hide Prepare, EvalPath, Eval, ApplyPipeline, DepsOf;
    assert FindFetch(Persistent(k).nodes, "r") == Some(Send("R", true));
    SendOnce(w, "R", true, env, hist);
    hide FetchOne;
    assert Prints([]) == [];
    var round := [Round([Sent(Sending("R"), None)])];
    assert [] + round + [] == round;
  }

  lemma FailedMatches(k: nat, env: Env, e: ErrValue)
    requires hide Eval; Lookup(env, "r") == Some(Value.Err(e))
    ensures Eval(Scrutiny(k).scrutinee, env, None) == Done(Value.Err(e))
    ensures FirstArm(Scrutiny(k).arms, Value.Err(e)) == Some(Scrutiny(k).arms[0])
    ensures MatchPattern(Scrutiny(k).arms[0].pattern, Value.Err(e)) == Some(map[]) && InsertAll(env, map[]) == env
  {
    var arms := Scrutiny(k).arms;
    assert MatchPattern(arms[0].pattern, Value.Err(e)) == Some(map[]);
    hide MatchPattern;
    assert arms[0] == Scrutiny(k).arms[0];
    assert FirstArm(arms, Value.Err(e)) == Some(arms[0]);
  }

  /** An attempt that fails: one request, and the name is bound again. */
  lemma FailedAttempt(p: Prog, fuel: nat, k: nat, env: Env, hist: seq<Request>, attempts: nat, e: ErrValue)
    requires hide RunBody, RunOrder, RunWaves, RunNode, RoundStep, FetchOne, Eval, ApplyPipeline;
             attempts > 0 && Lookup(env, "r") == Some(Value.Err(e))
    ensures var first := Refetch(p.world, Scrutiny(k), Persistent(k), env, hist);
            && first.env == Insert(env, "r", SentValue(p.world, "R", true, hist).value)
            && first.evs == [Round([Sent(Sending("R"), None)])]
            && RunMatch(p, Waves, fuel, Scrutiny(k), Persistent(k), env, hist, attempts).evs
               == first.evs + RunMatch(p, Waves, fuel, Scrutiny(k), Persistent(k), first.env,
                   hist + Mutations(first.evs), attempts - 1).evs
  {
    hide Prepare, ApplyPipeline;
    var m, b, scrut := Scrutiny(k), Persistent(k), Value.Err(e);
    FailedMatches(k, env, e);
    assert RunEffects([], env) == Done(true);
    RefetchR(p.world, k, env, hist);
    hide FetchOne, Eval, MatchPattern, FirstArm, FindFetch, RunBody, Refetch, InsertAll, Mutations;
    var first := Refetch(p.world, m, b, env, hist);
    var again := RunMatch(p, Waves, fuel, m, b, first.env, hist + Mutations(first.evs), attempts - 1);
    assert Prints([]) == [];
    assert RunMatch(p, Waves, fuel, m, b, env, hist, attempts).evs == Prints([]) + Prints([]) + first.evs + again.evs;
    assert [] + [] + first.evs + again.evs == first.evs + again.evs;
  }

  lemma LastAttempt(p: Prog, fuel: nat, k: nat, env: Env, hist: seq<Request>, v: Value, e: ErrValue)
    requires hide *; InOrderArrival(p.world) && Reluctant(p.world, e) && Lookup(env, "r") == Some(Value.Ok(v))
    ensures Sends(RunMatch(p, Waves, fuel, Scrutiny(k), Persistent(k), env, hist, 1).evs) == k
  {
    hide FetchOne, Prepare, ApplyPipeline;
    var m, b, scrut := Scrutiny(k), Persistent(k), Value.Ok(v);
    assert Eval(m.scrutinee, env, None) == Done(scrut);
    assert InsertAll(env, map[]) == env;
    assert MatchPattern(m.arms[0].pattern, scrut) == None;
    assert MatchPattern(m.arms[1].pattern, scrut) == Some(map[]);
    assert m.arms[1..][0] == m.arms[1];
    assert FirstArm(m.arms, scrut) == Some(m.arms[1]);
    hide Eval, MatchPattern, FirstArm, RunWaves;
    BurstSends(p, fuel, k, k, env, hist, e);
    var r := RunBody(p, Waves, fuel, Burst(k), env, hist);
    assert |Burst(k).waves| == k;
    assert RunMatch(p, Waves, fuel, m, b, env, hist, 1).evs == Prints([]) + r.evs;
    assert Prints([]) + r.evs == r.evs;
  }

  /** From the moment `attempts` attempts are left, one request per failed attempt and then the block. */
  lemma {:induction false} PersistentMatch(p: Prog, fuel: nat, k: nat, env: Env, hist: seq<Request>, attempts: nat,
      e: ErrValue)
    requires InOrderArrival(p.world) && Reluctant(p.world, e) && 1 <= attempts <= 5 && |hist| == 6 - attempts
    requires Lookup(env, "r") == Some(if attempts > 1 then Value.Err(e) else Value.Ok(Value.Null))
    ensures Sends(RunMatch(p, Waves, fuel, Scrutiny(k), Persistent(k), env, hist, attempts).evs) == attempts - 1 + k
    decreases attempts
  {
    hide RunBody, RunOrder, RunWaves, RunNode, RunLoop, RunTail, NodeStep, RoundStep, LaunchTo, FetchOne, Prepare,
      EvalPath, Eval, ApplyPipeline, DepsOf, RunMatch, Refetch, Sends;
    if attempts > 1 {
      FailedAttempt(p, fuel, k, env, hist, attempts, e);
      var x := Sent(Sending("R"), None);
      var first := Refetch(p.world, Scrutiny(k), Persistent(k), env, hist);
      SentEvents(x);
      assert first.evs == FetchEvents(Fetched([], Some(x), [], None));
      PersistentMatch(p, fuel, k, first.env, hist + Mutations(first.evs), attempts - 1, e);
      SendsAppend(first.evs,
          RunMatch(p, Waves, fuel, Scrutiny(k), Persistent(k), first.env, hist + Mutations(first.evs),
          attempts - 1).evs);
    } else {
      LastAttempt(p, fuel, k, env, hist, Value.Null, e);
    }
  }

  /** Four retries and then a block of `k` requests: the reported maximum is a bound exactly when the
      block sends at most one. */
  lemma RetryThenBlock(p: Prog, fuel: nat, k: nat, env: Env, e: ErrValue)
    requires InOrderArrival(p.world) && Reluctant(p.world, e)
    ensures Sends(RunBody(p, Waves, fuel, Persistent(k), env, []).evs) == 5 + k
    ensures Sends(RunBody(p, Waves, fuel, Persistent(k), env, []).evs) <= RequestCost(Persistent(k), p.flows).requests
            <==> k <= 1
  {
    hide FetchOne, Prepare, Eval, ApplyPipeline;
    PersistentCost(p.flows, k);
    hide RequestCost, RunMatch, RoundStep, RunTail;
    var b := Persistent(k);
    assert RunWaves(p, fuel, b, 0, env, []) == Start(env);
    SendStep(p, fuel, b, 0, "R", true, env, []);
    OneNodeWave(p, fuel, b, 1, 1, env, []);
    var r := RunWaves(p, fuel, b, 1, env, []);
    var h := [] + Mutations(r.evs);
    PersistentMatch(p, fuel, k, r.env, h, 5, e);
    var evs := RunMatch(p, Waves, fuel, Scrutiny(k), b, r.env, h, 5).evs;
    assert RunNode(p, Waves, fuel, b, b.nodes[1], r.env, h).evs == evs;
    SendsAppend(r.evs, evs);
  }

  // ---------- a wave that mixes a fetch with a call ----------

  function Get(): FetchIr { FetchIr("GET", "A", [], [], None, None, None, None, [], false, None) }

  /** `fetch A / -> x   g()   log x`: the fetch and the call need nothing of each other, so they share a wave. */
  function Mixed(): Body {
    Body([Node(0, FetchN(Get()), Some("x"), {}, {}, false, true),
          Node(1, ExprN(Expr.Call(Ident("g"), [])), None, {}, {}, true, true),
          Node(2, LogN(Ident("x")), None, {"x"}, {0, 1}, true, true)], [[0, 1], [2]])
  }

  lemma MixedLevels(nodes: seq<Node>)
    requires hide *; nodes == Mixed().nodes
    ensures Level(nodes, 0) == 0 && Level(nodes, 1) == 0 && Level(nodes, 2) == 1
  {
    assert LevelTo(nodes, 0, 0) == 0;
    assert LevelTo(nodes, 1, 1) == LevelTo(nodes, 1, 0) == 0;
    assert LevelTo(nodes, 2, 0) == 0 && LevelTo(nodes, 2, 1) == 1 && LevelTo(nodes, 2, 2) == 1;
  }

  /** It is what the compiler makes of these three statements. */
  lemma MixedIsOptimized()
    ensures Wired(Mixed().nodes) && Mixed() == Optimized(Mixed().nodes)
  {
    var nodes := Mixed().nodes;
    MixedLevels(nodes);
    hide Level, LevelTo;
    assert LastWriter(nodes, 1, "x") == Some(0) && LastWriter(nodes, 2, "x") == Some(0);
    assert LastEffect(nodes, 0).None? && LastEffect(nodes, 1).None? && LastEffect(nodes, 2) == Some(1);
    assert IsLive(nodes, 2) && IsLive(nodes, 1) && 0 in nodes[2].deps && IsLive(nodes, 0);
    assert WithLive(nodes) == nodes;
    assert DepthTo(nodes, 0) == 0 && DepthTo(nodes, 1) == 1 && DepthTo(nodes, 2) == 1 && DepthTo(nodes, 3) == 2;
    assert WaveTo(nodes, 0, 0) == [] && WaveTo(nodes, 0, 1) == [0] && WaveTo(nodes, 0, 2) == [0, 1]
        && WaveTo(nodes, 0, 3) == [0, 1];
    assert WaveTo(nodes, 1, 0) == [] && WaveTo(nodes, 1, 1) == [] && WaveTo(nodes, 1, 2) == []
        && WaveTo(nodes, 1, 3) == [2];
    assert Schedule.Waves(nodes) == [[0, 1], [2]];
  }

  lemma {:induction false} BurstDepth(flows: seq<Flow>, d: nat, k: nat, visiting: seq<string>)
    requires k <= d
    ensures WavesCost(flows, Burst(d), k, visiting).depth == k
  {
    if k > 0 {
      BurstDepth(flows, d, k - 1, visiting);
      var b := Burst(d);
      assert NodeCost(flows, b, k - 1, visiting).depth == 1;
      assert b.waves[k - 1] == [k - 1];
      assert WaveCost(flows, b, [k - 1], 0, visiting) == ZERO;
      assert WaveCost(flows, b, [k - 1], 1, visiting).depth == 1;
    }
  }

  lemma MixedDepth(d: nat)
    ensures hide *; RequestCost(Mixed(), [Flow("g", [], Burst(d))]).depth == Max(1, d)
  {
    var flows, b := [Flow("g", [], Burst(d))], Mixed();
    var call := b.nodes[1].kind.value;
    assert CallName(call) == Some("g") && FindFlow(flows, "g") == Some(flows[0]);
    assert |Burst(d).waves| == d;
    assert [] + ["g"] == ["g"];
    BurstDepth(flows, d, d, ["g"]);
    assert BodyCost(flows, Burst(d), ["g"]).depth == d;
    assert CallCost(flows, call, []).depth == d;
    hide CallCost, NodesCost;
    assert NodeCost(flows, b, 0, []).depth == 1 && NodeCost(flows, b, 1, []).depth == d;
    hide NodeCost;
    assert WaveCost(flows, b, [0, 1], 0, []) == ZERO;
    assert WaveCost(flows, b, [0, 1], 1, []).depth == 1;
    assert WaveCost(flows, b, [0, 1], 2, []).depth == Max(1, d);
    assert WavesCost(flows, b, 0, []) == ZERO;
    assert WavesCost(flows, b, 1, []).depth == Max(1, d);
    LogCost(flows, b);
    assert WaveCost(flows, b, [2], 0, []) == ZERO;
    assert WaveCost(flows, b, [2], 1, []).depth == 0;
    assert WavesCost(flows, b, 2, []).depth == Max(1, d);
  }

  lemma LogCost(flows: seq<Flow>, b: Body)
    requires hide *; b == Mixed()
    ensures NodeCost(flows, b, 2, []) == ZERO
  {
  }

  lemma {:induction false} BurstRounds(p: Prog, fuel: nat, d: nat, j: nat, env: Env, hist: seq<Request>)
    requires hide RunBody, RunWaves, RunNode, RoundStep, FetchOne, Eval, ApplyPipeline;
             j <= d && InOrderArrival(p.world)
    requires forall h, r :: p.world.mutate(h, r) == Success(Value.Null)
    ensures var r := RunWaves(p, fuel, Burst(d), j, env, hist);
            r.ctl == Next(None) && Rounds(r.evs) == j
  {
    hide RunNode, RunLoop, RunMatch, LaunchTo, FetchOne, Prepare, Eval, ApplyPipeline, DepsOf, RunTail, RoundStep;
    if j > 0 {
      BurstRounds(p, fuel, d, j - 1, env, hist);
      SendStep(p, fuel, Burst(d), j - 1, "A", false, env, hist);
    }
  }

  /** The first wave: the round of the fetch, and then the rounds of the call. */
  lemma MixedFirstWave(p: Prog, fuel: nat, d: nat, env: Env, hist: seq<Request>)
    requires hide RunBody, RunWaves, RunNode, RoundStep, FetchOne, Eval, ApplyPipeline;
             p.flows == [Flow("g", [], Burst(d))] && InOrderArrival(p.world) && fuel > 0
    requires forall h, r :: p.world.mutate(h, r) == Success(Value.Null)
    requires forall r :: p.world.get(r) == Success(Value.Null)
    ensures var r := RunWaves(p, fuel, Mixed(), 1, env, hist);
            r.ctl.Next? && Rounds(r.evs) == 1 + d
  {
    hide RunLoop, RunMatch, LaunchTo, FetchOne, Prepare, Eval, ApplyPipeline, DepsOf;
    var b := Mixed();
    var r0 := Start(env);
    var s := RoundStep(p, b, [0], [0], r0, hist);
    MixedRound(p, env, hist);
    assert RunWaves(p, fuel, b, 0, env, hist) == r0;
    MixedFetches(b);
    hide RoundStep;
    assert RunWaves(p, fuel, b, 1, env, hist) == RunTail(p, fuel, b, [0, 1], 2, s, hist);
    assert RunTail(p, fuel, b, [0, 1], 0, s, hist) == s;
    assert RunTail(p, fuel, b, [0, 1], 1, s, hist) == s;
    hide RunNode;
    var h := hist + Mutations(s.evs);
    assert RunTail(p, fuel, b, [0, 1], 2, s, hist) == NodeStep(p, Waves, fuel, b, 1, s, hist);
    var n := RunNode(p, Waves, fuel, b, b.nodes[1], s.env, h);
    assert NodeStep(p, Waves, fuel, b, 1, s, hist) == Append(s, n);
    MixedCall(p, fuel, d, s.env, h);
    MetersAppend(s.evs, n.evs, x => 0);
  }

  lemma MixedLog(p: Prog, fuel: nat, env: Env, hist: seq<Request>)
    ensures hide RunBody, RunOrder, RunWaves, RunNode, RoundStep, FetchOne, Eval, ApplyPipeline;
            Rounds(RunNode(p, Waves, fuel, Mixed(), Mixed().nodes[2], env, hist).evs) == 0
  {
    var evs := RunNode(p, Waves, fuel, Mixed(), Mixed().nodes[2], env, hist).evs;
    assert Prints([]) == [] && Rounds([]) == 0;
    if evs != [] { assert evs[..|evs| - 1] == []; }
  }

  /** The wave takes the round of the fetch, and then the rounds of the call: one more than reported
      whenever the called flow issues requests. */
  lemma MixedWaveTakesBoth(p: Prog, fuel: nat, d: nat, env: Env, hist: seq<Request>)
    requires p.flows == [Flow("g", [], Burst(d))] && InOrderArrival(p.world) && fuel > 0
    requires forall h, r :: p.world.mutate(h, r) == Success(Value.Null)
    requires forall r :: p.world.get(r) == Success(Value.Null)
    ensures Rounds(RunBody(p, Waves, fuel, Mixed(), env, hist).evs) == 1 + d
    ensures Rounds(RunBody(p, Waves, fuel, Mixed(), env, hist).evs) <= RequestCost(Mixed(), p.flows).depth <==> d == 0
  {
    hide RunLoop, RunMatch, LaunchTo, FetchOne, Prepare, Eval, ApplyPipeline, DepsOf, RoundStep;
    MixedDepth(d);
    hide RequestCost, RunNode;
    var b := Mixed();
    MixedFirstWave(p, fuel, d, env, hist);
    OneNodeWave(p, fuel, b, 1, 2, env, hist);
    var r := RunWaves(p, fuel, b, 1, env, hist);
    hide RunTail;
    MixedLog(p, fuel, r.env, hist + Mutations(r.evs));
    MetersAppend(r.evs, RunNode(p, Waves, fuel, b, b.nodes[2], r.env, hist + Mutations(r.evs)).evs, x => 0);
    assert RunBody(p, Waves, fuel, b, env, hist) == RunWaves(p, fuel, b, 2, env, hist);
  }

  lemma MixedFetches(b: Body)
    requires hide *; b == Mixed()
    ensures FetchIds(b, [0, 1]) == [0]
  {
    assert FetchIds(b, []) == [] && [0, 1][1..] == [1] && [1][1..] == [];
    assert FetchIds(b, [1]) == [];
  }

  lemma GetOnce(w: World, env: Env, hist: seq<Request>)
    requires forall r :: w.get(r) == Success(Value.Null)
    ensures var one := FetchOne(w, Get(), env, hist);
            one.before == [] && one.after == [] && one.sent.Some? && one.val.Some?
  {
    var f := Get();
    assert EvalIds(f.batch, env) == Done(Some([]));
    assert EvalParams(f.params, env) == Done(multiset{});
    assert EvalOpt(None, env) == Done(None);
    assert Prepare(f, env).val.Some? && Prepare(f, env).val.value.Some? && Prepare(f, env).out == [];
    hide Prepare;
    assert ApplyPipeline(Value.Null, [], env) == Done(Value.Null);
  }

  lemma MixedRound(p: Prog, env: Env, hist: seq<Request>)
    requires hide *; forall r :: p.world.get(r) == Success(Value.Null)
    ensures var s := RoundStep(p, Mixed(), [0], [0], Start(env), hist);
            s.ctl.Next? && Rounds(s.evs) == 1
  {
    hide LaunchTo, Prepare, EvalPath, Eval, ApplyPipeline, DepsOf;
    var b := Mixed();
    var h := hist + Mutations([]);
    var one := FetchOne(p.world, b.nodes[0].kind.f, env, h);
    GetOnce(p.world, env, h);
    hide FetchOne;
    SingleRound(p, b, 0, Start(env), hist);
    hide RoundStep;
    SentEvents(one.sent.value);
    assert FetchEvents(one) == FetchEvents(Fetched([], one.sent, [], None));
    MetersAppend([], FetchEvents(one), x => 0);
  }

  lemma MixedCall(p: Prog, fuel: nat, d: nat, env: Env, hist: seq<Request>)
    requires hide RunBody, RunOrder, RunWaves, RunNode, RoundStep, FetchOne, Eval, ApplyPipeline;
             p.flows == [Flow("g", [], Burst(d))] && InOrderArrival(p.world) && fuel > 0
    requires forall h, r :: p.world.mutate(h, r) == Success(Value.Null)
    ensures var r := RunNode(p, Waves, fuel, Mixed(), Mixed().nodes[1], env, hist);
            r.ctl.Next? && Rounds(r.evs) == d
  {
    hide FetchOne, Prepare, ApplyPipeline, Eval, RunWaves;
    var n := Mixed().nodes[1];
    var e := n.kind.value;
    assert CallName(e) == Some("g") && FindFlow(p.flows, "g") == Some(p.flows[0]);
    assert ArgValues([], env) == Done([]);
    assert Prints([]) == [] && ParamEnv([], []) == map[];
    assert |Burst(d).waves| == d;
    BurstRounds(p, fuel - 1, d, d, Env(map[], env.os), hist);
    var r := CallFlow(p, Waves, fuel - 1, p.flows[0], [], env, hist);
    var inner := Env(map[], env.os);
    assert RunBody(p, Waves, fuel - 1, Burst(d), inner, hist) == RunWaves(p, fuel - 1, Burst(d), d, inner, hist);
    hide RunBody;
    assert r.evs == RunBody(p, Waves, fuel - 1, Burst(d), inner, hist).evs;
    hide CallFlow;
    assert RunExpr(p, Waves, fuel, n, e, env, hist).evs == Prints([]) + r.evs;
    assert Prints([]) + r.evs == r.evs;
  }
}
