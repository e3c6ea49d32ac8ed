/** Runs in program order do not depend on schedules or liveness marks. */
module BodyEquality {
  import opened Wrappers
  import opened Evaluator
  import opened Ir
  import opened Exec

  predicate NoRetry(k: NodeKind) {
    k.MatchN? ==> forall a | a in k.m.arms :: !a.body.RetryArm?
  }

  lemma {:induction false} MatchIgnoresBody(p: Prog, mode: Mode, fuel: nat, m: MatchIr, a: Body, b: Body, env: Env,
      hist: seq<Request>, attempts: nat)
    requires forall x | x in m.arms :: !x.body.RetryArm?
    ensures RunMatch(p, mode, fuel, m, a, env, hist, attempts) == RunMatch(p, mode, fuel, m, b, env, hist, attempts)
  {
    hide FetchOne, Prepare, Eval, ApplyPipeline;
    var v := Eval(m.scrutinee, env, None);
    if v.val.Some? {
      FirstArmIn(m.arms, v.val.value);
    }
  }

  /** Without retry arms, a node does the same wherever it stands. */
  lemma NodeIgnoresBody(p: Prog, mode: Mode, fuel: nat, a: Body, b: Body, n: Node, o: Node, env: Env,
      hist: seq<Request>)
    requires n.kind == o.kind && n.binding == o.binding && NoRetry(n.kind)
    ensures RunNode(p, mode, fuel, a, n, env, hist) == RunNode(p, mode, fuel, b, o, env, hist)
  {
    hide FetchOne, Prepare, Eval, ApplyPipeline;
    match n.kind {
      case MatchN(m) => MatchIgnoresBody(p, mode, fuel, m, a, b, env, hist, MAX_RETRIES);
      case ExprN(e) =>
        assert RunExpr(p, mode, fuel, n, e, env, hist) == RunExpr(p, mode, fuel, o, e, env, hist);
      case _ =>
    }
  }

  predicate SameNode(n: Node, o: Node) {
    n.kind == o.kind && n.binding == o.binding && n.effect == o.effect
  }

  /** The nodes agree on everything a run looks at. */
  ghost predicate SameNodes(a: Body, b: Body) {
    hide *;
    |a.nodes| == |b.nodes|
    && forall i | 0 <= i < |a.nodes| :: SameNode(a.nodes[i], b.nodes[i]) && NoRetry(a.nodes[i].kind)
  }

  lemma RoundIgnoresBody(p: Prog, a: Body, b: Body, i: NodeId, r: Run, hist: seq<Request>)
    requires hide *; i < |a.nodes| && i < |b.nodes| && SameNode(a.nodes[i], b.nodes[i])
    ensures RoundStep(p, a, [i], [i], r, hist) == RoundStep(p, b, [i], [i], r, hist)
  {
    hide FetchOne, Prepare, Eval, ApplyPipeline;
    if r.ctl.Next? {
      var h := hist + Mutations(r.evs);
      assert LaunchTo(p.world, a, [i], 0, r.env, h) == LaunchTo(p.world, b, [i], 0, r.env, h);
      var l := LaunchTo(p.world, a, [i], 1, r.env, h);
      assert l == LaunchTo(p.world, b, [i], 1, r.env, h);
      var s := r.(evs := r.evs + LaunchEvents(l));
      assert Collect(a, [i], 0, l.vals, s) == Collect(b, [i], 0, l.vals, s);
    }
  }

  lemma {:induction false} OrderIgnoresMarks(p: Prog, fuel: nat, a: Body, b: Body, k: nat, env: Env, hist: seq<Request>)
    requires hide RunBody, RunOrder, RunWaves, RunNode, RoundStep, FetchOne, Eval, ApplyPipeline;
             SameNodes(a, b) && k <= |a.nodes|
    ensures RunOrder(p, fuel, a, k, env, hist) == RunOrder(p, fuel, b, k, env, hist)
    decreases k
  {
    hide RunNode, RunLoop, RunMatch, LaunchTo, FetchOne, Prepare, Eval, ApplyPipeline, RoundStep;
    if k > 0 {
      OrderIgnoresMarks(p, fuel, a, b, k - 1, env, hist);
      var r := RunOrder(p, fuel, a, k - 1, env, hist);
      assert SameNode(a.nodes[k - 1], b.nodes[k - 1]);
      if IsFetch(a, k - 1) {
        RoundIgnoresBody(p, a, b, k - 1, r, hist);
      } else if r.ctl.Next? {
        NodeIgnoresBody(p, InOrder, fuel, a, b, a.nodes[k - 1], b.nodes[k - 1], r.env, hist + Mutations(r.evs));
      }
    }
  }

  /** The reference run does not look at liveness, edges or waves. */
  lemma InOrderIgnoresMarks(p: Prog, fuel: nat, a: Body, b: Body, env: Env, hist: seq<Request>)
    requires SameNodes(a, b)
    ensures RunBody(p, InOrder, fuel, a, env, hist) == RunBody(p, InOrder, fuel, b, env, hist)
  {
    hide RunNode, RunLoop, RunMatch, LaunchTo, FetchOne, Prepare, Eval, ApplyPipeline;
    OrderIgnoresMarks(p, fuel, a, b, |a.nodes|, env, hist);
  }
}
