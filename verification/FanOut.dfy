/** What a run may do, by induction on the run: every request and every round comes from a body
    that the analyses visited. */
module FanOut {
  import opened Wrappers
  import opened Ast
  import opened Values
  import opened Evaluator
  import opened Ir
  import opened Exec
  import opened Traces
  import opened Costs
  import opened CostBounds
  import opened Capabilities

  // ---------- the widest round ----------

  ghost predicate RetriesIn(v: Body) {
    exists n :: n in v.nodes && n.live && n.kind.MatchN? && Retries(n.kind.m.arms)
  }

  /** A round of the body `v` has at most `most` requests. */
  ghost predicate NoWider(v: Body, most: nat) {
    (forall k: nat | k < |v.waves| :: |FetchIds(v, v.waves[k])| <= most) && (RetriesIn(v) ==> 1 <= most)
  }

  lemma {:induction false} WaveWidth(flows: seq<Flow>, b: Body, wave: seq<NodeId>, k: nat, visiting: seq<string>)
    requires hide *; k <= |wave|
    ensures WaveCost(flows, b, wave, k, visiting).parallel == |FetchIds(b, wave[..k])|
  {
    hide NodeCost;
    if k > 0 {
      WaveWidth(flows, b, wave, k - 1, visiting);
      assert wave[..k] == wave[..k - 1] + [wave[k - 1]];
      FetchIdsSnoc(b, wave[..k - 1], wave[k - 1]);
    }
  }

  lemma {:induction false} WavesWidth(flows: seq<Flow>, b: Body, k: nat, visiting: seq<string>, w: nat)
    requires hide *; w < k <= |b.waves|
    ensures |FetchIds(b, b.waves[w])| <= WavesCost(flows, b, k, visiting).parallel
  {
    hide NodeCost;
    if w < k - 1 {
      WavesWidth(flows, b, k - 1, visiting, w);
    } else {
      WaveWidth(flows, b, b.waves[w], |b.waves[w]|, visiting);
      assert b.waves[w][..|b.waves[w]|] == b.waves[w];
    }
  }

  lemma {:induction false} NodeWidth(flows: seq<Flow>, b: Body, k: nat, visiting: seq<string>, i: nat)
    requires hide *; i < k <= |b.nodes|
    ensures NodeCost(flows, b, i, visiting).parallel <= NodesCost(flows, b, k, visiting).parallel
  {
    hide NodeCost;
    if i < k - 1 { NodeWidth(flows, b, k - 1, visiting, i); }
  }

  lemma LiveNodeWidth(flows: seq<Flow>, b: Body, n: Node, visiting: seq<string>)
    requires n in b.nodes && n.live
    ensures KindCost(flows, n.kind, visiting).parallel <= BodyCost(flows, b, visiting).parallel
  {
    var i: nat :| i < |b.nodes| && b.nodes[i] == n;
    NodeWidth(flows, b, |b.nodes|, visiting, i);
  }

  lemma Narrower(v: Body, a: nat, b: nat)
    requires NoWider(v, a) && a <= b
    ensures NoWider(v, b)
  {
  }

  /** The analysis covers the rounds of every visited body. */
  lemma {:induction false} WidthCovered(flows: seq<Flow>, b: Body, visiting: seq<string>, v: Body)
    requires v in Walk(flows, b, visiting)
    ensures NoWider(v, BodyCost(flows, b, visiting).parallel)
    decreases Unvisited(flows, visiting), b, 2
  {
    hide RunBody, RunOrder, RunWaves, RunNode, RunLoop, RunMatch, RunTail, NodeStep, RoundStep, LaunchTo, FetchOne,
      Prepare, EvalPath, Eval, ApplyPipeline, KindCost, WalkKind, NodesCost;
    if v == b {
      forall k: nat | k < |b.waves| ensures |FetchIds(b, b.waves[k])| <= BodyCost(flows, b, visiting).parallel {
        WavesWidth(flows, b, |b.waves|, visiting, k);
      }
      if RetriesIn(b) {
        var n :| n in b.nodes && n.live && n.kind.MatchN? && Retries(n.kind.m.arms);
        RetryWidth(flows, n.kind.m, visiting);
        LiveNodeWidth(flows, b, n, visiting);
      }
    } else {
      InWalkNodes(flows, b.nodes, visiting, v);
      var n :| n in b.nodes && n.live && v in WalkKind(flows, n.kind, visiting);
      KindWidth(flows, n.kind, visiting, v);
      LiveNodeWidth(flows, b, n, visiting);
      Narrower(v, KindCost(flows, n.kind, visiting).parallel, BodyCost(flows, b, visiting).parallel);
    }
  }

  lemma RetryWidth(flows: seq<Flow>, m: MatchIr, visiting: seq<string>)
    requires Retries(m.arms)
    ensures 1 <= KindCost(flows, MatchN(m), visiting).parallel
  {
    var a :| a in m.arms && a.body.RetryArm?;
    ArmWithin(flows, m.arms, a, visiting);
  }

  lemma {:induction false} KindWidth(flows: seq<Flow>, k: NodeKind, visiting: seq<string>, v: Body)
    requires v in WalkKind(flows, k, visiting)
    ensures NoWider(v, KindCost(flows, k, visiting).parallel)
    decreases Unvisited(flows, visiting), k, 0
  {
    hide RunBody, RunOrder, RunWaves, RunNode, RunLoop, RunMatch, RunTail, NodeStep, RoundStep, LaunchTo, FetchOne,
      Prepare, EvalPath, Eval, ApplyPipeline, BodyCost, Walk, NoWider;
    match k {
      case ExprN(e) =>
        var name := CallName(e);
        if name.Some? && name.value !in visiting && FindFlow(flows, name.value).Some? {
          Entered(flows, visiting, name.value);
          WidthCovered(flows, FindFlow(flows, name.value).value.body, visiting + [name.value], v);
        }
      case MatchN(m) =>
        InWalkArms(flows, m.arms, visiting, v);
        var a :| a in m.arms && a.body.BodyArm? && v in Walk(flows, a.body.b, visiting);
        assert a.body < a;
        WidthCovered(flows, a.body.b, visiting, v);
        ArmWithin(flows, m.arms, a, visiting);
        Narrower(v, BodyCost(flows, a.body.b, visiting).parallel, KindCost(flows, k, visiting).parallel);
      case ForEachN(fe) => WidthCovered(flows, fe.body, visiting, v);
      case _ =>
    }
  }

  // ---------- runs ----------

  /** A retry runs again the fetch that bound the matched name; it must not be a dead one. */
  ghost predicate RetriesLiveFetches(v: Body) {
    hide *;
    forall n | n in v.nodes && n.live && n.kind.MatchN? && Retries(n.kind.m.arms) && n.kind.m.scrutinee.Ident? ::
      var f := FindFetch(v.nodes, n.kind.m.scrutinee.name);
      f.Some? ==> Fetches(v, f.value)
  }

  /** The bodies a run stays within. */
  ghost predicate Enclosed(p: Prog, s: set<Body>) {
    && (forall ids: seq<NodeId>, env: Env :: multiset(p.world.arrival(ids, env)) == multiset(ids))
    && ClosedBut(p.flows, s, [])
    && forall v | v in s :: LaidOut(v) && RetriesLiveFetches(v)
  }

  ghost predicate SentBy(v: Body, x: Sent) {
    exists f :: Fetches(v, f) && x.req.endpoint == f.endpoint && x.req.httpMethod == f.httpMethod
  }

  /** The requests in flight together are those of one wave of `v`, or of one retry in `v`. */
  ghost predicate WaveOrRetry(v: Body, sent: seq<Sent>) {
    hide *;
    && (forall x | x in sent :: SentBy(v, x))
    && ((exists k: nat :: k < |v.waves| && |sent| <= |FetchIds(v, v.waves[k])|) || (|sent| <= 1 && RetriesIn(v)))
  }

  ghost predicate RoundIn(s: set<Body>, e: Event) {
    hide *;
    e.Round? ==> exists v :: v in s && WaveOrRetry(v, e.sent)
  }

  ghost predicate Attributed(s: set<Body>, evs: seq<Event>) {
    forall e | e in evs :: RoundIn(s, e)
  }

  lemma PrintsAttributed(s: set<Body>, lines: seq<string>)
    ensures Attributed(s, Prints(lines))
  {
  }

  lemma AppendAttributed(s: set<Body>, a: seq<Event>, b: seq<Event>)
    requires Attributed(s, a) && Attributed(s, b)
    ensures Attributed(s, a + b)
  {
  }

  lemma FetchSends(w: World, f: FetchIr, env: Env, hist: seq<Request>)
    ensures hide *; var r := FetchOne(w, f, env, hist);
            r.sent.Some? ==> r.sent.value.req.endpoint == f.endpoint && r.sent.value.req.httpMethod == f.httpMethod
  {
    hide Eval, ApplyPipeline;
  }

  lemma {:induction false} LaunchSends(w: World, b: Body, arrive: seq<NodeId>, k: nat, env: Env, hist: seq<Request>)
    requires hide FetchOne, Eval, ApplyPipeline;
             k <= |arrive| && forall i | i in arrive && IsFetch(b, i) :: b.nodes[i].live
    ensures var l := LaunchTo(w, b, arrive, k, env, hist);
            |l.sent| <= k && forall x | x in l.sent :: SentBy(b, x)
  {
    hide Prepare, Eval, ApplyPipeline, FetchOne;
    if k > 0 {
      LaunchSends(w, b, arrive, k - 1, env, hist);
      var l, id := LaunchTo(w, b, arrive, k - 1, env, hist), arrive[k - 1];
      if IsFetch(b, id) {
        FetchSends(w, b.nodes[id].kind.f, env, hist + MutationsOf(l.sent));
        assert b.nodes[id] in b.nodes && id in arrive;
        assert Fetches(b, b.nodes[id].kind.f);
      }
    }
  }

  lemma RoundAttributed(p: Prog, s: set<Body>, b: Body, k: nat, r: Run, hist: seq<Request>)
    requires hide *; Enclosed(p, s) && b in s && k < |b.waves| && Attributed(s, r.evs)
    ensures var ids := FetchIds(b, b.waves[k]);
            Attributed(s, RoundStep(p, b, ids, p.world.arrival(ids, r.env), r, hist).evs)
  {
    hide LaunchTo, Prepare, Eval, ApplyPipeline, FetchOne;
    var ids := FetchIds(b, b.waves[k]);
    if r.ctl.Next? {
      var arrive := p.world.arrival(ids, r.env);
      FetchIdsMembers(b, b.waves[k]);
      assert |multiset(arrive)| == |multiset(ids)| == |ids|;
      forall i | i in arrive ensures i in b.waves[k] { assert i in multiset(arrive); assert i in ids; }
      var h := hist + Mutations(r.evs);
      LaunchSends(p.world, b, arrive, |arrive|, r.env, h);
      var l := LaunchTo(p.world, b, arrive, |arrive|, r.env, h);
      LaunchAttributed(s, b, k, l);
      AppendAttributed(s, r.evs, LaunchEvents(l));
      CollectSendsNothing(b, ids, |ids|, l.vals, r.(evs := r.evs + LaunchEvents(l)));
    }
  }

  lemma LaunchAttributed(s: set<Body>, b: Body, k: nat, l: Launch)
    requires hide *;
             b in s && k < |b.waves| && |l.sent| <= |FetchIds(b, b.waves[k])| && forall x | x in l.sent :: SentBy(b, x)
    ensures Attributed(s, LaunchEvents(l))
  {
    assert WaveOrRetry(b, l.sent);
    PrintsAttributed(s, l.before);
    PrintsAttributed(s, l.after);
  }

  lemma {:induction false} BodyAttributed(p: Prog, s: set<Body>, fuel: nat, b: Body, env: Env, hist: seq<Request>)
    requires Enclosed(p, s) && b in s
    ensures Attributed(s, RunBody(p, Waves, fuel, b, env, hist).evs)
    decreases fuel, b, 9, 0
  {
    hide RunNode, RunLoop, RunMatch, LaunchTo, FetchOne, Prepare, Eval, ApplyPipeline;
    WavesAttributed(p, s, fuel, b, |b.waves|, env, hist);
  }

  lemma {:induction false} WavesAttributed(p: Prog, s: set<Body>, fuel: nat, b: Body, k: nat, env: Env,
      hist: seq<Request>)
    requires hide *; Enclosed(p, s) && b in s && k <= |b.waves|
    ensures Attributed(s, RunWaves(p, fuel, b, k, env, hist).evs)
    decreases fuel, b, 8, k
  {
    hide RunNode, RunLoop, RunMatch, LaunchTo, FetchOne, Prepare, Eval, ApplyPipeline, Enclosed, RoundStep, RoundIn;
    if k > 0 {
      WavesAttributed(p, s, fuel, b, k - 1, env, hist);
      var r := RunWaves(p, fuel, b, k - 1, env, hist);
      RoundAttributed(p, s, b, k - 1, r, hist);
      var wave := b.waves[k - 1];
      var ids := FetchIds(b, wave);
      TailAttributed(p, s, fuel, b, k - 1, |wave|, RoundStep(p, b, ids, p.world.arrival(ids, r.env), r, hist), hist);
    }
  }

  lemma {:induction false} TailAttributed(p: Prog, s: set<Body>, fuel: nat, b: Body, w: nat, k: nat, r: Run,
      hist: seq<Request>)
    requires hide *; Enclosed(p, s) && b in s && w < |b.waves| && k <= |b.waves[w]| && Attributed(s, r.evs)
    ensures Attributed(s, RunTail(p, fuel, b, b.waves[w], k, r, hist).evs)
    decreases fuel, b, 7, k
  {
    hide RunLoop, RunMatch, LaunchTo, FetchOne, Prepare, Eval, ApplyPipeline, Enclosed, RunNode, RoundIn;
    if k > 0 {
      TailAttributed(p, s, fuel, b, w, k - 1, r, hist);
      var t := RunTail(p, fuel, b, b.waves[w], k - 1, r, hist);
      var i := b.waves[w][k - 1];
      ScheduledLive(p, s, b, w, i);
      if !IsFetch(b, i) && t.ctl.Next? {
        assert b.nodes[i] < b;
        var h := hist + Mutations(t.evs);
        NodeAttributed(p, s, fuel, b, b.nodes[i], t.env, h);
        AppendAttributed(s, t.evs, RunNode(p, Waves, fuel, b, b.nodes[i], t.env, h).evs);
      }
    }
  }

  lemma ScheduledLive(p: Prog, s: set<Body>, b: Body, w: nat, i: NodeId)
    requires hide *; Enclosed(p, s) && b in s && w < |b.waves| && i in b.waves[w]
    ensures i < |b.nodes| && b.nodes[i].live
  {
  }

  lemma {:induction false} NodeAttributed(p: Prog, s: set<Body>, fuel: nat, b: Body, n: Node, env: Env,
      hist: seq<Request>)
    requires Enclosed(p, s) && b in s && n in b.nodes && n.live
    ensures Attributed(s, RunNode(p, Waves, fuel, b, n, env, hist).evs)
    decreases fuel, n, 5, 0
  {
    hide FetchOne, Prepare, ApplyPipeline, Enclosed, RoundIn, Eval, RunMatch, RunLoop;
    match n.kind {
      case ExprN(e) => ExprAttributed(p, s, fuel, b, n, e, env, hist);
      case MatchN(m) => MatchAttributed(p, s, fuel, b, n, m, env, hist, MAX_RETRIES);
      case ForEachN(fe) =>
        var v := Eval(fe.iter, env, None);
        PrintsAttributed(s, v.out);
        if v.val.Some? {
          var items := v.val.value.Items();
          LoopAttributed(p, s, fuel, b, n, fe, items, |items|, env, hist);
          AppendAttributed(s, Prints(v.out), RunLoop(p, Waves, fuel, fe, items, |items|, env, hist).evs);
        }
      case LetN(e) => PrintsAttributed(s, Eval(e, env, None).out);
      case ScatterN(_, _, e) => PrintsAttributed(s, Eval(e, env, None).out);
      case AssertN(e) => PrintsAttributed(s, Eval(e, env, None).out);
      case LogN(e) =>
        var v := Eval(e, env, None);
        PrintsAttributed(s, v.out);
        if v.val.Some? {
          var lines := v.out + [v.val.value.Display()];
          assert Prints(lines) == Prints(v.out) + [Print(v.val.value.Display())];
          PrintsAttributed(s, lines);
        }
      case ReturnN(e) => PrintsAttributed(s, (if e.None? then Done(Value.Null) else Eval(e.value, env, None)).out);
      case FetchN(_) =>
    }
  }

  lemma {:induction false} ExprAttributed(p: Prog, s: set<Body>, fuel: nat, b: Body, n: Node, e: Expr, env: Env,
      hist: seq<Request>)
    requires Enclosed(p, s) && b in s && n in b.nodes && n.live && n.kind == ExprN(e)
    ensures Attributed(s, RunExpr(p, Waves, fuel, n, e, env, hist).evs)
    decreases fuel, n, 4, 0
  {
    hide RunOrder, RunWaves, RunNode, RunLoop, RunMatch, RunTail, NodeStep, RoundStep, LaunchTo, FetchOne, Prepare,
      EvalPath, ApplyPipeline, Attributed, Eval, RunBody;
    var name := CallName(e);
    if name.Some? && FindFlow(p.flows, name.value).Some? {
      var args := ArgValues(e.args, env);
      PrintsAttributed(s, args.out);
      if args.val.Some? && fuel > 0 {
        var flow := FindFlow(p.flows, name.value).value;
        assert Capabilities.Calls(p.flows, b, name.value);
        var inner := Env(ParamEnv(flow.params, args.val.value), env.os);
        BodyAttributed(p, s, fuel - 1, flow.body, inner, hist);
        AppendAttributed(s, Prints(args.out), RunBody(p, Waves, fuel - 1, flow.body, inner, hist).evs);
      }
    } else {
      PrintsAttributed(s, Eval(e, env, None).out);
    }
  }

  lemma {:induction false} LoopAttributed(p: Prog, s: set<Body>, fuel: nat, b: Body, n: Node, fe: ForEachIr,
      items: seq<Value>, k: nat, env: Env, hist: seq<Request>)
    requires hide *; Enclosed(p, s) && b in s && n in b.nodes && n.live && n.kind == ForEachN(fe) && k <= |items|
    ensures Attributed(s, RunLoop(p, Waves, fuel, fe, items, k, env, hist).evs)
    decreases fuel, fe, 3, k
  {
    hide FetchOne, Prepare, Eval, ApplyPipeline, RoundIn, RunBody;
    if k > 0 {
      LoopAttributed(p, s, fuel, b, n, fe, items, k - 1, env, hist);
      var r := RunLoop(p, Waves, fuel, fe, items, k - 1, env, hist);
      if r.ctl.Next? {
        assert InsideKind(n.kind, fe.body) && Inside(b, fe.body);
        var inner, h := Insert(r.env, fe.loopVar, items[k - 1]), hist + Mutations(r.evs);
        BodyAttributed(p, s, fuel, fe.body, inner, h);
        AppendAttributed(s, r.evs, RunBody(p, Waves, fuel, fe.body, inner, h).evs);
      }
    }
  }

  lemma {:induction false} MatchAttributed(p: Prog, s: set<Body>, fuel: nat, b: Body, n: Node, m: MatchIr, env: Env,
      hist: seq<Request>, attempts: nat)
    requires Enclosed(p, s) && b in s && n in b.nodes && n.live && n.kind == MatchN(m)
    ensures Attributed(s, RunMatch(p, Waves, fuel, m, b, env, hist, attempts).evs)
    decreases fuel, m, 3, attempts
  {
    hide FetchOne, Prepare, ApplyPipeline, Attributed, Eval, MatchPattern, RunBody, Refetch, RunEffects;
    var v := Eval(m.scrutinee, env, None);
    var out := Prints(v.out);
    PrintsAttributed(s, v.out);
    if v.val.Some? && attempts > 0 {
      FirstArmIn(m.arms, v.val.value);
      var chosen := FirstArm(m.arms, v.val.value);
      if chosen.Some? {
        var arm := chosen.value;
        var inner := InsertAll(env, MatchPattern(arm.pattern, v.val.value).value);
        match arm.body {
          case ValueArm(e) =>
            PrintsAttributed(s, Eval(e, inner, None).out);
            AppendAttributed(s, out, Prints(Eval(e, inner, None).out));
          case BodyArm(body) =>
            assert arm.body < arm && arm < m;
            assert arm.body in ArmBodies(m.arms);
            assert InsideKind(n.kind, body) && Inside(b, body);
            BodyAttributed(p, s, fuel, body, inner, hist);
            AppendAttributed(s, out, RunBody(p, Waves, fuel, body, inner, hist).evs);
          case RetryArm(effects) =>
            var waited, first := RunEffects(effects, inner), Refetch(p.world, m, b, inner, hist);
            PrintsAttributed(s, waited.out);
            AppendAttributed(s, out, Prints(waited.out));
            RefetchAttributed(p, s, b, n, m, arm, inner, hist);
            AppendAttributed(s, out + Prints(waited.out), first.evs);
            var h := hist + Mutations(first.evs);
            MatchAttributed(p, s, fuel, b, n, m, first.env, h, attempts - 1);
            AppendAttributed(s, out + Prints(waited.out) + first.evs,
                RunMatch(p, Waves, fuel, m, b, first.env, h, attempts - 1).evs);
        }
      }
    }
  }

  lemma RefetchAttributed(p: Prog, s: set<Body>, b: Body, n: Node, m: MatchIr, arm: ArmIr, env: Env, hist: seq<Request>)
    requires Enclosed(p, s) && b in s && n in b.nodes && n.live && n.kind == MatchN(m) && arm in m.arms
             && arm.body.RetryArm?
    ensures Attributed(s, Refetch(p.world, m, b, env, hist).evs)
  {
    hide Prepare, EvalPath, Eval, ApplyPipeline, FetchOne;
    if m.scrutinee.Ident? && FindFetch(b.nodes, m.scrutinee.name).Some? {
      var f := FindFetch(b.nodes, m.scrutinee.name).value;
      var r := FetchOne(p.world, f, env, hist);
      assert Retries(m.arms);
      assert RetriesIn(b) && Fetches(b, f);
      PrintsAttributed(s, r.before);
      PrintsAttributed(s, r.after);
      if r.sent.Some? {
        FetchSends(p.world, f, env, hist);
        assert WaveOrRetry(b, [r.sent.value]);
        assert RoundIn(s, Round([r.sent.value]));
      }
    }
  }

  // ---------- the theorem ----------

  /** Every request of every run, at whatever depth of recursion, goes to an endpoint in the effect
      signature; without `mutates` it is a GET or a HEAD; and never are more than `parallel`
      requests in flight. */
  lemma CapabilitiesHold(p: Prog, fuel: nat, b: Body, env: Env, hist: seq<Request>, e: Event)
    requires hide *; Enclosed(p, Walk(p.flows, b, [])) && e in RunBody(p, Waves, fuel, b, env, hist).evs && e.Round?
    ensures |e.sent| <= RequestCost(b, p.flows).parallel
    ensures forall x | x in e.sent ::
              && x.req.endpoint in RequestEffects(b, p.flows).endpoints
              && (!RequestEffects(b, p.flows).mutates ==> IsSafeMethod(x.req.httpMethod))
  {
    hide RunOrder, RunWaves, RunNode, RunLoop, RunMatch, RunTail, NodeStep, RoundStep, LaunchTo, FetchOne, Prepare,
      EvalPath, Eval, ApplyPipeline, RunBody, BodyCost, BodyEffects;
    var s := Walk(p.flows, b, []);
    WalkClosed(p.flows, b, []);
    hide Walk;
    BodyAttributed(p, s, fuel, b, env, hist);
    assert RoundIn(s, e);
    var v :| v in s && WaveOrRetry(v, e.sent);
    WidthCovered(p.flows, b, [], v);
    forall x | x in e.sent
      ensures x.req.endpoint in RequestEffects(b, p.flows).endpoints
      ensures !RequestEffects(b, p.flows).mutates ==> IsSafeMethod(x.req.httpMethod)
    {
      assert SentBy(v, x);
      var f :| Fetches(v, f) && x.req.endpoint == f.endpoint && x.req.httpMethod == f.httpMethod;
      var contact: Claim := Some(x.req.endpoint);
      EffectsExact(p.flows, b, [], contact);
      EffectsExact(p.flows, b, [], None);
      assert Does(f, contact);
    }
  }
}
