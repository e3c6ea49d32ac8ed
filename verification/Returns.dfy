/** What a node leaves that runs other bodies: a call, a match and a loop, in either order of execution. */
module Returns {
  import opened Wrappers
  import opened Ast
  import opened Values
  import opened Evaluator
  import opened Ir
  import opened Exec

  /** A body that ended this way gives whoever ran it `v`: what it returned, or the value of the last of its
      expressions, calls and matches, or null when it has none. */
  predicate Gives(c: Ctl, v: Value) {
    hide *;
    c == Return(v) || c == Next(Some(v)) || (c == Next(None) && v == Value.Null)
  }

  /** `e` holds `v` in `binding`, when there is one, and otherwise what `env` holds. */
  ghost predicate Holds(env: Env, binding: Option<string>, v: Value, e: Env) {
    hide *;
    && e.os == env.os
    && forall x: string :: Lookup(e, x) == if binding == Some(x) then Some(v) else Lookup(env, x)
  }

  /** The node binds what the body gives, and passes its failure on. */
  lemma HandsOver(n: Node, c: Ctl, r: Run)
    requires hide *; r.ctl == BodyValue(c)
    ensures var s := BindLast(n, r);
            && s.evs == r.evs && (c.Fail? ==> s.ctl == c && s.env == r.env)
            && forall v :: Gives(c, v) ==> s.ctl == Next(Some(v)) && Holds(r.env, n.binding, v, s.env)
  {
  }

  // ---------- calls ----------

  /** The node calls the declared flow `flow` with arguments of the values `args`. */
  predicate Calls(p: Prog, n: Node, env: Env, flow: Flow, args: seq<Value>) {
    hide *;
    && n.kind.ExprN? && n.kind.value.Call? && n.kind.value.callee.Ident?
    && FindFlow(p.flows, n.kind.value.callee.name) == Some(flow)
    && |n.kind.value.args| == |args|
    && forall i | 0 <= i < |args| :: Eval(n.kind.value.args[i], env, None).val == Some(args[i])
  }

  function Fewer(a: nat, b: nat): (r: nat)
    ensures r <= a && r <= b && (r == a || r == b)
  {
    hide *;
    if a < b then a else b
  }

  /** A called flow sees its parameters and nothing else: surplus arguments are dropped, surplus parameters
      unbound, and of equal names the last one counts. */
  ghost predicate Entered(params: seq<string>, args: seq<Value>, vars: map<string, Value>) {
    hide *;
    var k := Fewer(|params|, |args|);
    && vars.Keys == (set x | x in params[..k])
    && forall i | 0 <= i < k && params[i] !in params[i + 1..k] :: vars[params[i]] == args[i]
  }

  lemma {:induction false} ParamKeys(params: seq<string>, args: seq<Value>)
    ensures hide ParamEnv; ParamEnv(params, args).Keys == set x | x in params[..Fewer(|params|, |args|)]
  {
    if params != [] && args != [] {
      ParamKeys(params[1..], args[1..]);
      assert params[..Fewer(|params|, |args|)] == [params[0]] + params[1..][..Fewer(|params|, |args|) - 1];
    }
  }

  lemma {:induction false} ParamAt(params: seq<string>, args: seq<Value>, i: nat)
    requires hide *; i < Fewer(|params|, |args|) && params[i] !in params[i + 1..Fewer(|params|, |args|)]
    ensures params[i] in ParamEnv(params, args) && ParamEnv(params, args)[params[i]] == args[i]
    decreases i
  {
    var k := Fewer(|params|, |args|);
    if i == 0 {
      ParamKeys(params[1..], args[1..]);
      assert params[1..][..k - 1] == params[1..k];
    } else {
      assert params[1..][i - 1] == params[i] && params[1..][i..k - 1] == params[i + 1..k];
      ParamAt(params[1..], args[1..], i - 1);
    }
  }

  lemma ParamsEntered(params: seq<string>, args: seq<Value>)
    ensures hide *; Entered(params, args, ParamEnv(params, args))
  {
    hide ParamEnv;
    var k := Fewer(|params|, |args|);
    ParamKeys(params, args);
    forall i | 0 <= i < k && params[i] !in params[i + 1..k]
        ensures params[i] in ParamEnv(params, args) && ParamEnv(params, args)[params[i]] == args[i] {
      ParamAt(params, args, i);
    }
  }

  lemma {:induction false} LastOf(s: seq<string>, x: string) returns (i: nat)
    requires hide *; x in s
    ensures i < |s| && s[i] == x && x !in s[i + 1..]
  {
    if x in s[1..] { i := LastOf(s[1..], x); i := i + 1; } else { i := 0; }
  }

  lemma EnteredOnce(params: seq<string>, args: seq<Value>, a: map<string, Value>, b: map<string, Value>)
    requires hide *; Entered(params, args, a) && Entered(params, args, b)
    ensures a == b
  {
    var k := Fewer(|params|, |args|);
    forall x | x in a ensures a[x] == b[x] {
      var i := LastOf(params[..k], x);
      assert params[..k][i + 1..] == params[i + 1..k];
    }
  }

  lemma {:induction false} ArgsEvaluated(es: seq<Expr>, env: Env, args: seq<Value>)
    requires hide *; |es| == |args| && forall i | 0 <= i < |args| :: Eval(es[i], env, None).val == Some(args[i])
    ensures ArgValues(es, env).val == Some(args)
  {
    hide Eval;
    if es != [] {
      forall i | 0 <= i < |args[1..]| ensures Eval(es[1..][i], env, None).val == Some(args[1..][i]) {
        assert es[1..][i] == es[i + 1] && args[1..][i] == args[i + 1];
      }
      ArgsEvaluated(es[1..], env, args[1..]);
      assert args == [args[0]] + args[1..];
    }
  }

  /** A call ends as the flow it runs ends, except that a return stops there: what the flow gives is the value
      of the call, stands in the node's binding and is the last value of the caller so far. */
  lemma CallGives(p: Prog, mode: Mode, fuel: nat, b: Body, n: Node, env: Env, hist: seq<Request>, flow: Flow,
      args: seq<Value>, vars: map<string, Value>)
    requires hide *; fuel > 0 && Calls(p, n, env, flow, args) && Entered(flow.params, args, vars)
    ensures var inner := RunBody(p, mode, fuel - 1, flow.body, Env(vars, env.os), hist);
            var r := RunNode(p, mode, fuel, b, n, env, hist);
            && (inner.ctl.Fail? ==> r.ctl == inner.ctl && r.env == env)
            && (forall v :: Gives(inner.ctl, v) ==> r.ctl == Next(Some(v)) && Holds(env, n.binding, v, r.env))
            && exists printed: seq<string> :: r.evs == Prints(printed) + inner.evs
  {
    hide RunBody, Eval, ArgValues, ParamEnv, Gives, Holds, BindLast, BodyValue;
    ArgsEvaluated(n.kind.value.args, env, args);
    ParamsEntered(flow.params, args);
    EnteredOnce(flow.params, args, vars, ParamEnv(flow.params, args));
    var inner := RunBody(p, mode, fuel - 1, flow.body, Env(vars, env.os), hist);
    var r := RunExpr(p, mode, fuel, n, n.kind.value, env, hist);
    assert CallName(n.kind.value) == Some(n.kind.value.callee.name);
    assert CallFlow(p, mode, fuel - 1, flow, args, env, hist) == Run(env, inner.evs, BodyValue(inner.ctl));
    assert r == Run(env, Prints(ArgValues(n.kind.value.args, env).out) + inner.evs, BodyValue(inner.ctl));
    assert RunNode(p, mode, fuel, b, n, env, hist) == BindLast(n, r);
    HandsOver(n, inner.ctl, r);
  }

  /** `{ return e }` */
  predicate JustReturns(b: Body, e: Expr) {
    hide *;
    |b.nodes| == 1 && b.nodes[0].kind == ReturnN(Some(e)) && b.waves == [[0]]
  }

  lemma {:induction false} NothingLaunched(w: World, b: Body, arrive: seq<NodeId>, k: nat, env: Env, hist: seq<Request>)
    requires hide *; k <= |arrive| && forall n | n in b.nodes :: !n.kind.FetchN?
    ensures LaunchTo(w, b, arrive, k, env, hist) == Launch([], [], [], map[])
  {
    if k > 0 { NothingLaunched(w, b, arrive, k - 1, env, hist); }
  }

  lemma ReturnRuns(p: Prog, mode: Mode, fuel: nat, b: Body, e: Expr, env: Env, hist: seq<Request>)
    requires hide *; JustReturns(b, e)
    ensures var v := Eval(e, env, None);
            RunBody(p, mode, fuel, b, env, hist)
            == Run(env, Prints(v.out), if v.val.Some? then Return(v.val.value) else Fail(false))
  {
    hide Eval;
    var r := Start(env);
    assert [] + Prints(Eval(e, env, None).out) == Prints(Eval(e, env, None).out);
    assert hist + Mutations([]) == hist;
    assert NodeStep(p, mode, fuel, b, 0, r, hist) == Append(r, RunNode(p, mode, fuel, b, b.nodes[0], env, hist));
    if mode.InOrder? {
      assert RunOrder(p, fuel, b, 0, env, hist) == r;
    } else {
      assert RunWaves(p, fuel, b, 0, env, hist) == r && b.waves[0] == [0];
      assert FetchIds(b, [0][1..]) == [] && FetchIds(b, [0]) == [];
      var arrive := p.world.arrival([], env);
      NothingLaunched(p.world, b, arrive, |arrive|, env, hist + Mutations([]));
      var l := LaunchTo(p.world, b, arrive, |arrive|, env, hist + Mutations([]));
      assert LaunchEvents(l) == [] && RoundStep(p, b, [], arrive, r, hist) == r;
      assert RunTail(p, fuel, b, [0], 0, r, hist) == r;
      assert RunTail(p, fuel, b, [0], 1, r, hist) == NodeStep(p, mode, fuel, b, 0, r, hist);
    }
  }

  /** Calling `flow f(x) { return e }` with `a` binds the value `e` has where `x` alone is known, and is `a`'s. */
  lemma ReturningFlow(p: Prog, mode: Mode, fuel: nat, b: Body, n: Node, env: Env, hist: seq<Request>, flow: Flow,
      x: string, e: Expr, a: Value)
    requires hide *; fuel > 0 && flow.params == [x] && JustReturns(flow.body, e) && Calls(p, n, env, flow, [a])
    ensures var v := Eval(e, Env(map[x := a], env.os), None).val;
            var r := RunNode(p, mode, fuel, b, n, env, hist);
            if v.None? then r.ctl == Fail(false) && r.env == env
            else r.ctl == Next(v) && Holds(env, n.binding, v.value, r.env)
  {
    hide RunBody, RunNode, Eval;
    ReturnRuns(p, mode, fuel - 1, flow.body, e, Env(map[x := a], env.os), hist);
    assert [x][..1] == [x] && map[x := a].Keys == {x};
    CallGives(p, mode, fuel, b, n, env, hist, flow, [a], map[x := a]);
    var v := Eval(e, Env(map[x := a], env.os), None).val;
    if v.Some? { assert Gives(Return(v.value), v.value); }
  }

  // ---------- matches ----------

  /** The `k`-th arm is the first whose pattern matches `v`, and captures `binds`. */
  predicate Chosen(arms: seq<ArmIr>, v: Value, k: nat, binds: map<string, Value>) {
    hide *;
    && k < |arms| && MatchPattern(arms[k].pattern, v) == Some(binds)
    && forall j | 0 <= j < k :: MatchPattern(arms[j].pattern, v).None?
  }

  lemma {:induction false} ChosenIsFirst(arms: seq<ArmIr>, v: Value, k: nat, binds: map<string, Value>)
    requires hide Eval; Chosen(arms, v, k, binds)
    ensures FirstArm(arms, v) == Some(arms[k])
  {
    hide MatchPattern;
    if k > 0 {
      forall j | 0 <= j < k - 1 ensures MatchPattern(arms[1..][j].pattern, v).None? {
        assert arms[1..][j] == arms[j + 1];
      }
      ChosenIsFirst(arms[1..], v, k - 1, binds);
    }
  }

  /** A match runs the first arm that applies, with its captures bound where the match stands.  What a block
      gives is the value of the match; what it binds stays bound. */
  lemma MatchGives(p: Prog, mode: Mode, fuel: nat, b: Body, n: Node, env: Env, hist: seq<Request>, v: Value,
      k: nat, binds: map<string, Value>)
    requires hide RunBody, RunWaves, RunOrder, RunNode, RoundStep, FetchOne, Eval, ApplyPipeline;
             n.kind.MatchN? && Eval(n.kind.m.scrutinee, env, None).val == Some(v)
    requires Chosen(n.kind.m.arms, v, k, binds) && n.kind.m.arms[k].body.BodyArm?
    ensures var inner := RunBody(p, mode, fuel, n.kind.m.arms[k].body.b, Env(env.vars + binds, env.os), hist);
            var r := RunNode(p, mode, fuel, b, n, env, hist);
            && (inner.ctl.Fail? ==> r.ctl == inner.ctl && r.env == inner.env)
            && (forall w :: Gives(inner.ctl, w) ==> r.ctl == Next(Some(w)) && Holds(inner.env, n.binding, w, r.env))
            && exists printed: seq<string> :: r.evs == Prints(printed) + inner.evs
  {
    hide RunBody, Eval, Gives, Holds, BindLast, BodyValue;
    ChosenIsFirst(n.kind.m.arms, v, k, binds);
    var inner := RunBody(p, mode, fuel, n.kind.m.arms[k].body.b, InsertAll(env, binds), hist);
    var r := RunMatch(p, mode, fuel, n.kind.m, b, env, hist, MAX_RETRIES);
    assert r == Run(inner.env, Prints(Eval(n.kind.m.scrutinee, env, None).out) + inner.evs, BodyValue(inner.ctl));
    assert RunNode(p, mode, fuel, b, n, env, hist) == BindLast(n, r);
    HandsOver(n, inner.ctl, r);
  }

  /** An arm that is an expression gives its value; a value no arm applies to is an error. */
  lemma MatchEvaluates(p: Prog, mode: Mode, fuel: nat, b: Body, n: Node, env: Env, hist: seq<Request>, v: Value)
    requires hide RunBody, RunWaves, RunOrder, RunNode, RoundStep, FetchOne, Eval, ApplyPipeline;
             n.kind.MatchN? && Eval(n.kind.m.scrutinee, env, None).val == Some(v)
    ensures var r := RunNode(p, mode, fuel, b, n, env, hist);
            && (forall k: nat, binds :: Chosen(n.kind.m.arms, v, k, binds) && n.kind.m.arms[k].body.ValueArm? ==>
                  var inner := Env(env.vars + binds, env.os);
                  var w := Eval(n.kind.m.arms[k].body.e, inner, None).val;
                  if w.None? then r.ctl == Fail(false)
                  else r.ctl == Next(w) && Holds(inner, n.binding, w.value, r.env))
            && ((forall a | a in n.kind.m.arms :: MatchPattern(a.pattern, v).None?) ==> r.ctl == Fail(false))
  {
    hide RunBody, Eval, MatchPattern;
    var arms := n.kind.m.arms;
    var r := RunMatch(p, mode, fuel, n.kind.m, b, env, hist, MAX_RETRIES);
    assert RunNode(p, mode, fuel, b, n, env, hist) == BindLast(n, r);
    forall k: nat, binds | Chosen(arms, v, k, binds) ensures FirstArm(arms, v) == Some(arms[k]) {
      ChosenIsFirst(arms, v, k, binds);
    }
    FirstArmIn(arms, v);
  }

  // ---------- retries ----------

  /** `match x { Err(_) => retry }` */
  predicate Retries(m: MatchIr, x: string) {
    hide *;
    m == MatchIr(Ident(x), [ArmIr(Ctor("Err", [Wildcard]), RetryArm([]))])
  }

  /** A retry asks at most five times more.  When the answer stays an error, that error is the value. */
  lemma RetriesFiveTimes(p: Prog, mode: Mode, fuel: nat, b: Body, n: Node, x: string, f: FetchIr, sent: Sent,
      e: ErrValue, env: Env, hist: seq<Request>)
    requires hide *; n.kind.MatchN? && Retries(n.kind.m, x) && FindFetch(b.nodes, x) == Some(f)
    requires Lookup(env, x) == Some(Value.Err(e))
    requires forall h :: FetchOne(p.world, f, env, h) == Fetched([], Some(sent), [], Some(Value.Err(e)))
    ensures var r := RunNode(p, mode, fuel, b, n, env, hist);
            && r.ctl == Next(Some(Value.Err(e))) && Holds(env, n.binding, Value.Err(e), r.env)
            && r.evs == [Round([sent]), Round([sent]), Round([sent]), Round([sent]), Round([sent])]
  {
    hide FetchOne, Eval;
    RetriedMatch(p, mode, fuel, b, n.kind.m, x, f, sent, e, env, hist, 5);
    assert seq(5, i requires 0 <= i < 5 => Round([sent]))
        == [Round([sent]), Round([sent]), Round([sent]), Round([sent]), Round([sent])];
  }

  lemma RefetchFails(w: World, m: MatchIr, b: Body, x: string, f: FetchIr, sent: Sent, e: ErrValue, env: Env,
      hist: seq<Request>)
    requires hide *; Retries(m, x) && FindFetch(b.nodes, x) == Some(f) && Lookup(env, x) == Some(Value.Err(e))
    requires FetchOne(w, f, env, hist) == Fetched([], Some(sent), [], Some(Value.Err(e)))
    ensures Refetch(w, m, b, env, hist) == Run(env, [Round([sent])], Next(None))
  {
    hide FetchOne;
    assert Insert(env, x, Value.Err(e)) == env && [] + [Round([sent])] + [] == [Round([sent])];
  }

  lemma {:induction false} RetriedMatch(p: Prog, mode: Mode, fuel: nat, b: Body, m: MatchIr, x: string, f: FetchIr,
      sent: Sent, e: ErrValue, env: Env, hist: seq<Request>, attempts: nat)
    requires hide *; Retries(m, x) && FindFetch(b.nodes, x) == Some(f) && Lookup(env, x) == Some(Value.Err(e))
    requires forall h :: FetchOne(p.world, f, env, h) == Fetched([], Some(sent), [], Some(Value.Err(e)))
    ensures RunMatch(p, mode, fuel, m, b, env, hist, attempts)
         == Run(env, seq(attempts, i requires 0 <= i < attempts => Round([sent])), Next(Some(Value.Err(e))))
    decreases attempts
  {
    hide RunBody, FetchOne, Mutations, Holds;
    assert Eval(m.scrutinee, env, None) == Done(Value.Err(e));
    hide Eval;
    if attempts > 0 {
      assert MatchErr([Wildcard], Value.Err(e)) == Some(map[]);
      assert MatchPattern(Ctor("Err", [Wildcard]), Value.Err(e)) == Some(map[]);
      assert Chosen(m.arms, Value.Err(e), 0, map[]);
      ChosenIsFirst(m.arms, Value.Err(e), 0, map[]);
      assert InsertAll(env, map[]) == env;
      RefetchFails(p.world, m, b, x, f, sent, e, env, hist);
      var first := Refetch(p.world, m, b, env, hist);
      hide Refetch, FirstArm, MatchPattern;
      RetriedMatch(p, mode, fuel, b, m, x, f, sent, e, env, hist + Mutations(first.evs), attempts - 1);
      assert [] + [] + first.evs + seq(attempts - 1, i requires 0 <= i < attempts - 1 => Round([sent]))
          == seq(attempts, i requires 0 <= i < attempts => Round([sent]));
    }
  }

  // ---------- loops ----------

  function AllEvents(rs: seq<Run>): seq<Event> {
    hide *;
    if rs == [] then [] else AllEvents(rs[..|rs| - 1]) + rs[|rs| - 1].evs
  }

  function LeftBy(env: Env, rs: seq<Run>): Env { if rs == [] then env else rs[|rs| - 1].env }

  /** The runs of the body for the first elements: each starts where the one before it ended, with the loop
      variable at the next element and the requests sent so far behind it. */
  ghost predicate Turns(p: Prog, mode: Mode, fuel: nat, fe: ForEachIr, items: seq<Value>, env: Env,
      hist: seq<Request>, rs: seq<Run>) {
    hide *;
    |rs| <= |items| && forall i | 0 <= i < |rs| ::
      rs[i] == RunBody(p, mode, fuel, fe.body, Insert(LeftBy(env, rs[..i]), fe.loopVar, items[i]),
                       hist + Mutations(AllEvents(rs[..i])))
  }

  /** The loop goes on after a turn that did not fail and, where the body holds a `return`, left no value. */
  predicate GoesOn(fe: ForEachIr, c: Ctl) {
    hide *;
    if fe.canReturn then c == Next(None) else !c.Fail?
  }

  lemma {:induction false} LoopTurns(p: Prog, mode: Mode, fuel: nat, fe: ForEachIr, items: seq<Value>, env: Env,
      hist: seq<Request>, rs: seq<Run>)
    requires hide RunBody, RunWaves, RunOrder, RunNode, RoundStep, FetchOne, Eval, ApplyPipeline;
             Turns(p, mode, fuel, fe, items, env, hist, rs)
    requires forall i | 0 <= i < |rs| - 1 :: GoesOn(fe, rs[i].ctl)
    ensures var r := RunLoop(p, mode, fuel, fe, items, |rs|, env, hist);
            && |rs| <= |items| && r.env == LeftBy(env, rs) && r.evs == AllEvents(rs)
            && r.ctl == if rs == [] then Next(None) else LoopCtl(fe, rs[|rs| - 1].ctl)
  {
    hide RunBody;
    if rs != [] {
      var k := |rs| - 1;
      forall i | 0 <= i < k ensures rs[..k][..i] == rs[..i] {}
      LoopTurns(p, mode, fuel, fe, items, env, hist, rs[..k]);
      assert rs[k].env == LeftBy(env, rs);
    }
  }

  lemma {:induction false} LoopOver(p: Prog, mode: Mode, fuel: nat, fe: ForEachIr, items: seq<Value>, env: Env,
      hist: seq<Request>, j: nat, k: nat)
    requires hide *; j <= k <= |items| && !RunLoop(p, mode, fuel, fe, items, j, env, hist).ctl.Next?
    ensures RunLoop(p, mode, fuel, fe, items, k, env, hist) == RunLoop(p, mode, fuel, fe, items, j, env, hist)
  {
    hide RunBody;
    if j < k { LoopOver(p, mode, fuel, fe, items, env, hist, j, k - 1); }
  }

  lemma TurnEnds(fe: ForEachIr, c: Ctl)
    ensures hide *; if GoesOn(fe, c) then LoopCtl(fe, c) == Next(None)
            else if c.Fail? then LoopCtl(fe, c) == c
            else LoopCtl(fe, c).Return? && Gives(c, LoopCtl(fe, c).v)
  {
  }

  /** A loop runs its body once for each element, until a turn fails or, where the body holds a `return`, leaves
      a value, which the loop then returns. */
  lemma LoopGives(p: Prog, mode: Mode, fuel: nat, b: Body, n: Node, env: Env, hist: seq<Request>, v: Value,
      rs: seq<Run>)
    requires hide *; n.kind.ForEachN? && Eval(n.kind.fe.iter, env, None).val == Some(v)
    requires Turns(p, mode, fuel, n.kind.fe, v.Items(), env, hist, rs)
    requires forall i | 0 <= i < |rs| - 1 :: GoesOn(n.kind.fe, rs[i].ctl)
    ensures var r, fe := RunNode(p, mode, fuel, b, n, env, hist), n.kind.fe;
            var all := |rs| == |v.Items()| && (rs == [] || GoesOn(fe, rs[|rs| - 1].ctl));
            var over := rs != [] && !GoesOn(fe, rs[|rs| - 1].ctl);
            && (all || over ==> r.env == LeftBy(env, rs)
                                && exists printed: seq<string> :: r.evs == Prints(printed) + AllEvents(rs))
            && (all ==> r.ctl == Next(None))
            && (over ==> if rs[|rs| - 1].ctl.Fail? then r.ctl == rs[|rs| - 1].ctl
                         else exists w :: Gives(rs[|rs| - 1].ctl, w) && r.ctl == Return(w))
  {
    hide RunBody, Eval, RunLoop, GoesOn, LoopCtl, Gives, Turns;
    var fe, items := n.kind.fe, v.Items();
    LoopTurns(p, mode, fuel, fe, items, env, hist, rs);
    if rs != [] {
      TurnEnds(fe, rs[|rs| - 1].ctl);
      if !GoesOn(fe, rs[|rs| - 1].ctl) { LoopOver(p, mode, fuel, fe, items, env, hist, |rs|, |items|); }
    }
  }

  // ---------- the other nodes ----------

  /** `v` is the first of `items` whose key field is `want`, or null. */
  ghost predicate Picked(items: seq<Value>, keyField: string, want: Value, v: Value) {
    hide *;
    && (forall k | 0 <= k < |items| && items[k].GetField(keyField) == want
                   && (forall j | 0 <= j < k :: items[j].GetField(keyField) != want) :: v == items[k])
    && ((forall k | 0 <= k < |items| :: items[k].GetField(keyField) != want) ==> v == Value.Null)
  }

  lemma {:induction false} FirstWithPicks(items: seq<Value>, keyField: string, want: Value)
    ensures hide *; Picked(items, keyField, want, FirstWith(items, keyField, want))
  {
    if items != [] && items[0].GetField(keyField) != want {
      var rest := items[1..];
      FirstWithPicks(rest, keyField, want);
      forall k | 0 <= k < |items| && items[k].GetField(keyField) == want
                 && (forall j | 0 <= j < k :: items[j].GetField(keyField) != want)
          ensures FirstWith(rest, keyField, want) == items[k] {
        assert rest[k - 1] == items[k];
        forall j | 0 <= j < k - 1 ensures rest[j].GetField(keyField) != want { assert rest[j] == items[j + 1]; }
      }
    }
  }

  /** A `let` binds, a `log` prints and an `assert` tests the value of its expression; a `return` ends the body with
      it, or with null. */
  lemma SimpleNodes(p: Prog, mode: Mode, fuel: nat, b: Body, n: Node, env: Env, hist: seq<Request>, e: Expr, v: Value)
    requires hide *; Eval(e, env, None).val == Some(v)
    ensures var r := RunNode(p, mode, fuel, b, n, env, hist);
            && (n.kind == LetN(e) ==> r.ctl == Next(None) && Holds(env, n.binding, v, r.env))
            && (n.kind == LogN(e) ==>
                  r.ctl == Next(None) && r.env == env
                  && r.evs == Prints(Eval(e, env, None).out) + [Print(v.Display())])
            && (n.kind == AssertN(e) ==> r.ctl == (if v.Truthy() then Next(None) else Fail(false)) && r.env == env)
            && (n.kind == ReturnN(Some(e)) ==> r.ctl == Return(v) && r.env == env)
            && (n.kind == ReturnN(None) ==> r.ctl == Return(Value.Null) && r.env == env)
  {
    hide Eval, RunExpr, RunMatch, RunLoop, Pick;
  }

  /** A scatter binds the element of its batch that has the wanted key, or null. */
  lemma ScatterPicks(p: Prog, mode: Mode, fuel: nat, b: Body, n: Node, env: Env, hist: seq<Request>, items: seq<Value>)
      returns (w: Value)
    requires hide *; n.kind.ScatterN? && Eval(n.kind.want, env, None).val.Some?
    requires Lookup(env, n.kind.batch) == Some(Value.Array(items))
    ensures Picked(items, n.kind.keyField, Eval(n.kind.want, env, None).val.value, w)
    ensures var r := RunNode(p, mode, fuel, b, n, env, hist);
            r.ctl == Next(None) && Holds(env, n.binding, w, r.env)
  {
    hide Eval, RunExpr, RunMatch, RunLoop, FirstWith;
    w := FirstWith(items, n.kind.keyField, Eval(n.kind.want, env, None).val.value);
    FirstWithPicks(items, n.kind.keyField, Eval(n.kind.want, env, None).val.value);
    hide Picked;
  }
}
