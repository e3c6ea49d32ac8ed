/** Names that a program never reads do not matter to it: runs in program order from environments
    that differ only in such names are the same. */
module FreshNames {
  import opened Wrappers
  import opened Ast
  import opened Values
  import opened Evaluator
  import opened Frames
  import opened Ir
  import opened Exec
  import opened FetchFrames

  /** Equal but for the names in `f`. */
  ghost predicate SameBut(a: Env, e: Env, f: set<string>) {
    a.os == e.os && forall x | x !in f :: Lookup(a, x) == Lookup(e, x)
  }

  ghost predicate Avoids(b: Body, f: set<string>)
    decreases b
  {
    hide *;
    forall n | n in b.nodes :: AvoidsKind(n.kind, f)
  }

  ghost predicate AvoidsKind(k: NodeKind, f: set<string>)
    decreases k
  {
    hide *;
    match k
    case FetchN(g) => FetchVars(g, true) !! f
    case LetN(e) => Vars(e, true) !! f
    case LogN(e) => Vars(e, true) !! f
    case ReturnN(r) => OptVars(r, true) !! f
    case AssertN(e) => Vars(e, true) !! f
    case ExprN(e) => Vars(e, true) !! f
    case ScatterN(batch, _, want) => batch !in f && Vars(want, true) !! f
    case MatchN(m) => Vars(m.scrutinee, true) !! f && forall a | a in m.arms :: AvoidsArm(a, f)
    case ForEachN(fe) => Vars(fe.iter, true) !! f && Avoids(fe.body, f)
  }

  ghost predicate AvoidsArm(a: ArmIr, f: set<string>)
    decreases a
  {
    hide *;
    match a.body
    case ValueArm(e) => Vars(e, true) !! f
    case BodyArm(b) => assert a.body < a; Avoids(b, f)
    case RetryArm(effects) => EffectsVars(effects, true) !! f
  }

  /** Runs that cannot be told apart and leave environments that differ only in `f`. */
  ghost predicate Alike(r: Run, s: Run, f: set<string>) {
    r.evs == s.evs && r.ctl == s.ctl && SameBut(r.env, s.env, f)
  }

  lemma SeesSame(a: Env, e: Env, f: set<string>, names: set<string>)
    requires SameBut(a, e, f) && names !! f
    ensures Agree(a, e, names)
  {
  }

  lemma InsertSame(a: Env, e: Env, f: set<string>, name: string, v: Value)
    requires SameBut(a, e, f)
    ensures SameBut(Insert(a, name, v), Insert(e, name, v), f)
  {
  }

  lemma InsertAllSame(a: Env, e: Env, f: set<string>, binds: map<string, Value>)
    requires SameBut(a, e, f)
    ensures SameBut(InsertAll(a, binds), InsertAll(e, binds), f)
  {
  }

  lemma EvalSame(v: Expr, a: Env, e: Env, f: set<string>)
    requires SameBut(a, e, f) && Vars(v, true) !! f
    ensures Eval(v, a, None) == Eval(v, e, None)
  {
    hide *;
    SeesSame(a, e, f, Vars(v, true));
    EvalFrame(v, a, e, None);
  }

  lemma FetchSame(w: World, g: FetchIr, a: Env, e: Env, f: set<string>, hist: seq<Request>)
    requires SameBut(a, e, f) && FetchVars(g, true) !! f
    ensures FetchOne(w, g, a, hist) == FetchOne(w, g, e, hist)
  {
    hide *;
    SeesSame(a, e, f, FetchVars(g, true));
    FetchFrame(w, g, a, e, hist);
  }

  lemma {:induction false} EffectsSame(effects: seq<Effect>, a: Env, e: Env, f: set<string>)
    requires SameBut(a, e, f) && EffectsVars(effects, true) !! f
    ensures RunEffects(effects, a) == RunEffects(effects, e)
  {
    hide Eval, Vars;
    if effects != [] {
      EvalSame(effects[0].e, a, e, f);
      EffectsSame(effects[1..], a, e, f);
    }
  }

  lemma {:induction false} BodyUnseen(p: Prog, fuel: nat, b: Body, a: Env, e: Env, hist: seq<Request>, f: set<string>)
    requires Avoids(b, f) && SameBut(a, e, f)
    ensures Alike(RunBody(p, InOrder, fuel, b, a, hist), RunBody(p, InOrder, fuel, b, e, hist), f)
    decreases fuel, b, 9, 0
  {
    hide RunNode, RunLoop, RunMatch, LaunchTo, FetchOne, Prepare, Eval, ApplyPipeline, Vars;
    OrderUnseen(p, fuel, b, |b.nodes|, a, e, hist, f);
  }

  lemma {:induction false} OrderUnseen(p: Prog, fuel: nat, b: Body, k: nat, a: Env, e: Env, hist: seq<Request>,
      f: set<string>)
    requires hide *; Avoids(b, f) && SameBut(a, e, f) && k <= |b.nodes|
    ensures Alike(RunOrder(p, fuel, b, k, a, hist), RunOrder(p, fuel, b, k, e, hist), f)
    decreases fuel, b, 8, k
  {
    hide RunLoop, RunMatch, LaunchTo, FetchOne, Prepare, Eval, ApplyPipeline, Vars, Avoids, RoundStep, RunNode;
    if k > 0 {
      OrderUnseen(p, fuel, b, k - 1, a, e, hist, f);
      var r, s := RunOrder(p, fuel, b, k - 1, a, hist), RunOrder(p, fuel, b, k - 1, e, hist);
      AvoidsNode(b, k - 1, f);
      assert b.nodes[k - 1] < b;
      if IsFetch(b, k - 1) {
        RoundUnseen(p, b, k - 1, r, s, hist, f);
      } else if r.ctl.Next? {
        NodeUnseen(p, fuel, b, b.nodes[k - 1], r.env, s.env, hist + Mutations(r.evs), f);
      }
    }
  }

  lemma AvoidsNode(b: Body, i: nat, f: set<string>)
    requires hide *; Avoids(b, f) && i < |b.nodes|
    ensures AvoidsKind(b.nodes[i].kind, f)
  {
    hide Vars;
    assert b.nodes[i] in b.nodes;
  }

  lemma RoundUnseen(p: Prog, b: Body, i: NodeId, r: Run, s: Run, hist: seq<Request>, f: set<string>)
    requires Avoids(b, f) && Alike(r, s, f) && IsFetch(b, i)
    ensures Alike(RoundStep(p, b, [i], [i], r, hist), RoundStep(p, b, [i], [i], s, hist), f)
  {
    hide Prepare, Eval, ApplyPipeline, Vars;
    if r.ctl.Next? {
      assert b.nodes[i] in b.nodes;
      var h := hist + Mutations(r.evs);
      LaunchUnseen(p.world, b, i, r.env, s.env, h, f);
      hide FetchOne, LaunchTo, LaunchEvents, Mutations;
      var l := LaunchTo(p.world, b, [i], 1, r.env, h);
      var r0, s0 := r.(evs := r.evs + LaunchEvents(l)), s.(evs := s.evs + LaunchEvents(l));
      assert Collect(b, [i], 0, l.vals, r0) == r0 && Collect(b, [i], 0, l.vals, s0) == s0;
    }
  }

  lemma LaunchUnseen(w: World, b: Body, i: NodeId, a: Env, e: Env, hist: seq<Request>, f: set<string>)
    requires hide FetchOne, Eval, ApplyPipeline, Vars;
             IsFetch(b, i) && FetchVars(b.nodes[i].kind.f, true) !! f && SameBut(a, e, f)
    ensures LaunchTo(w, b, [i], 1, a, hist) == LaunchTo(w, b, [i], 1, e, hist)
  {
    hide Prepare, Eval, ApplyPipeline, Vars, FetchOne;
    var l := LaunchTo(w, b, [i], 0, a, hist);
    assert l == LaunchTo(w, b, [i], 0, e, hist);
    FetchSame(w, b.nodes[i].kind.f, a, e, f, hist + MutationsOf(l.sent));
  }

  lemma {:induction false} NodeUnseen(p: Prog, fuel: nat, b: Body, n: Node, a: Env, e: Env, hist: seq<Request>,
      f: set<string>)
    requires Avoids(b, f) && AvoidsKind(n.kind, f) && SameBut(a, e, f)
    ensures Alike(RunNode(p, InOrder, fuel, b, n, a, hist), RunNode(p, InOrder, fuel, b, n, e, hist), f)
    decreases fuel, n, 5, 0
  {
    hide FetchOne, Prepare, ApplyPipeline, Avoids, Eval, RunMatch, RunLoop, RunExpr, Vars;
    match n.kind {
      case FetchN(_) =>
      case LetN(v) => EvalSame(v, a, e, f);
      case LogN(v) => EvalSame(v, a, e, f);
      case AssertN(v) => EvalSame(v, a, e, f);
      case ReturnN(v) => if v.Some? { EvalSame(v.value, a, e, f); }
      case ScatterN(_, _, v) => EvalSame(v, a, e, f);
      case ExprN(v) => ExprUnseen(p, fuel, n, v, a, e, hist, f);
      case MatchN(m) => MatchUnseen(p, fuel, m, b, a, e, hist, MAX_RETRIES, f);
      case ForEachN(fe) =>
        EvalSame(fe.iter, a, e, f);
        var v := Eval(fe.iter, a, None);
        if v.val.Some? { LoopUnseen(p, fuel, fe, v.val.value.Items(), |v.val.value.Items()|, a, e, hist, f); }
    }
  }

  lemma ExprUnseen(p: Prog, fuel: nat, n: Node, v: Expr, a: Env, e: Env, hist: seq<Request>, f: set<string>)
    requires Vars(v, true) !! f && SameBut(a, e, f)
    ensures Alike(RunExpr(p, InOrder, fuel, n, v, a, hist), RunExpr(p, InOrder, fuel, n, v, e, hist), f)
  {
    hide RunOrder, RunWaves, RunNode, RunLoop, RunMatch, RunTail, NodeStep, RoundStep, LaunchTo, FetchOne, Prepare,
      EvalPath, ApplyPipeline, Vars, Eval, RunBody;
    EvalSame(v, a, e, f);
    if CallName(v).Some? {
      SeesSame(a, e, f, Vars(v, true));
      CallVars(v);
      ArgsFrame(v.args, a, e);
    }
  }

  lemma CallVars(v: Expr)
    requires hide *; v.Call? && CallName(v).Some?
    ensures ExprsVars(v.args, true) <= Vars(v, true)
  {
  }

  lemma {:induction false} LoopUnseen(p: Prog, fuel: nat, fe: ForEachIr, items: seq<Value>, k: nat, a: Env, e: Env,
      hist: seq<Request>, f: set<string>)
    requires hide *; k <= |items| && Avoids(fe.body, f) && SameBut(a, e, f)
    ensures Alike(RunLoop(p, InOrder, fuel, fe, items, k, a, hist), RunLoop(p, InOrder, fuel, fe, items, k, e, hist), f)
    decreases fuel, fe, 3, k
  {
    hide FetchOne, Prepare, Eval, ApplyPipeline, Vars, Avoids, RunBody;
    if k > 0 {
      LoopUnseen(p, fuel, fe, items, k - 1, a, e, hist, f);
      var r, s := RunLoop(p, InOrder, fuel, fe, items, k - 1, a, hist),
          RunLoop(p, InOrder, fuel, fe, items, k - 1, e, hist);
      if r.ctl.Next? {
        InsertSame(r.env, s.env, f, fe.loopVar, items[k - 1]);
        BodyUnseen(p, fuel, fe.body, Insert(r.env, fe.loopVar, items[k - 1]), Insert(s.env, fe.loopVar, items[k - 1]),
            hist + Mutations(r.evs), f);
      }
    }
  }

  lemma {:induction false} MatchUnseen(p: Prog, fuel: nat, m: MatchIr, b: Body, a: Env, e: Env, hist: seq<Request>,
      attempts: nat, f: set<string>)
    requires Avoids(b, f) && AvoidsKind(MatchN(m), f) && SameBut(a, e, f)
    ensures Alike(RunMatch(p, InOrder, fuel, m, b, a, hist, attempts),
            RunMatch(p, InOrder, fuel, m, b, e, hist, attempts), f)
    decreases fuel, m, 3, attempts
  {
    hide FetchOne, Prepare, ApplyPipeline, Avoids, Eval, MatchPattern, RunBody, Refetch, RunEffects, FirstArm, Vars,
      RunLoop, RunNode, RunOrder, RunWaves, RunTail, RunExpr, CallFlow, NodeStep, RoundStep, Mutations;
    EvalSame(m.scrutinee, a, e, f);
    var v := Eval(m.scrutinee, a, None);
    if v.val.Some? && attempts > 0 {
      FirstArmIn(m.arms, v.val.value);
      var chosen := FirstArm(m.arms, v.val.value);
      if chosen.Some? {
        var arm := chosen.value;
        var binds := MatchPattern(arm.pattern, v.val.value).value;
        InsertAllSame(a, e, f, binds);
        var ia, ie := InsertAll(a, binds), InsertAll(e, binds);
        match arm.body {
          case ValueArm(x) => EvalSame(x, ia, ie, f);
          case BodyArm(body) =>
            assert arm.body < arm && arm < m;
            BodyUnseen(p, fuel, body, ia, ie, hist, f);
          case RetryArm(effects) =>
            EffectsSame(effects, ia, ie, f);
            RefetchUnseen(p.world, m, b, ia, ie, hist, f);
            var first, again := Refetch(p.world, m, b, ia, hist), Refetch(p.world, m, b, ie, hist);
            MatchUnseen(p, fuel, m, b, first.env, again.env, hist + Mutations(first.evs), attempts - 1, f);
        }
      }
    }
  }

  lemma {:induction false} FoundFetch(nodes: seq<Node>, name: string, f: set<string>)
    requires hide *; FindFetch(nodes, name).Some? && forall n | n in nodes :: AvoidsKind(n.kind, f)
    ensures FetchVars(FindFetch(nodes, name).value, true) !! f
  {
    hide Vars;
    assert nodes[0] in nodes;
    if !(nodes[0].kind.FetchN? && nodes[0].binding == Some(name)) { FoundFetch(nodes[1..], name, f); }
  }

  lemma RefetchUnseen(w: World, m: MatchIr, b: Body, a: Env, e: Env, hist: seq<Request>, f: set<string>)
    requires Avoids(b, f) && SameBut(a, e, f)
    ensures Alike(Refetch(w, m, b, a, hist), Refetch(w, m, b, e, hist), f)
  {
    hide Prepare, EvalPath, Eval, ApplyPipeline, Vars, FetchOne;
    if m.scrutinee.Ident? && FindFetch(b.nodes, m.scrutinee.name).Some? {
      FoundFetch(b.nodes, m.scrutinee.name, f);
      FetchSame(w, FindFetch(b.nodes, m.scrutinee.name).value, a, e, f, hist);
    }
  }

  // ---------- what avoids a name does not read it ----------

  lemma {:induction false} AvoidsUses(k: NodeKind, f: set<string>)
    requires AvoidsKind(k, f)
    ensures KindVars(k, true) !! f
    decreases k, 1
  {
    hide Vars;
    match k {
      case MatchN(m) => ArmsAvoidUses(m.arms, f);
      case ForEachN(fe) => BodyAvoidsUses(fe.body, f);
      case _ =>
    }
  }

  lemma {:induction false} ArmsAvoidUses(arms: seq<ArmIr>, f: set<string>)
    requires forall a | a in arms :: AvoidsArm(a, f)
    ensures ArmsIrVars(arms, true) !! f
    decreases arms, 0
  {
    hide Vars, KindVars, BodyVars;
    if arms != [] {
      assert arms[0] in arms;
      if arms[0].body.BodyArm? {
        assert arms[0].body < arms[0];
        BodyAvoidsUses(arms[0].body.b, f);
      }
      ArmsAvoidUses(arms[1..], f);
    }
  }

  lemma {:induction false} BodyAvoidsUses(b: Body, f: set<string>)
    requires Avoids(b, f)
    ensures BodyVars(b, true) !! f
    decreases b, 1
  {
    hide Vars;
    NodesAvoidUses(b.nodes, f);
  }

  lemma {:induction false} NodesAvoidUses(nodes: seq<Node>, f: set<string>)
    requires forall n | n in nodes :: AvoidsKind(n.kind, f)
    ensures NodesVars(nodes, true) !! f
    decreases nodes, 0
  {
    hide Vars, KindVars, BodyVars;
    if nodes != [] {
      assert nodes[0] in nodes;
      assert nodes[0].kind < nodes[0];
      AvoidsUses(nodes[0].kind, f);
      NodesAvoidUses(nodes[1..], f);
    }
  }
}
