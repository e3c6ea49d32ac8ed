/** One run of a loop body after hoisting, against one run before. */
module LoopFusionBody {
  import opened Wrappers
  import opened Ast
  import opened Values
  import opened Evaluator
  import opened Frames
  import opened Ir
  import opened Exec
  import Elements
  import opened Quiet
  import opened FetchFrames
  import opened Traces
  import opened BodyEquality
  import opened FreshNames
  import opened Fusion
  import opened FusionMeaning
  import opened LoopFusion

  /** What the hoisting conditions leave to assume of a fetch: its value is used as it comes, nothing is
      printed, the key does not look at the implicit element, and what key and prefix read is not
      written by the body in any other way either. */
  ghost predicate HoistPlain(fe: ForEachIr, n: Node)
    requires Hoistable(fe, n)
  {
    hide Vars, KeyOf, Groups;
    var f := n.kind.f;
    && !f.asResult && f.contract.None? && f.body.None? && QuietFetch(f) && Elements.Elementless(KeyExpr(n))
    && Vars(KeyExpr(n), true) - {fe.loopVar} !! BodyWrites(fe.body)
    && PathVars(Prefix(f.path), true) !! BodyWrites(fe.body) + {fe.loopVar}
  }

  /** A loop that is fit for hoisting. */
  ghost predicate LoopFit(fe: ForEachIr) {
    hide *;
    && Quiet.Quiet(fe.iter) && fe.loopVar !in BodyWrites(fe.body)
    && forall i: nat | i < |fe.body.nodes| ::
         && NoRetry(fe.body.nodes[i].kind) && fe.body.nodes[i].effect == IsEffect(fe.body.nodes[i].kind)
         && (Hoistable(fe, fe.body.nodes[i]) ==> HoistPlain(fe, fe.body.nodes[i]))
  }

  /** The names of the batches are unknown to the loop body. */
  ghost predicate LoopAvoids(fe: ForEachIr, f: set<string>) {
    Avoids(fe.body, f) && BodyWrites(fe.body) !! f && fe.loopVar !in f
  }

  ghost function WantOf(fe: ForEachIr, n: Node, env: Env, item: Value): Option<Value>
    requires Hoistable(fe, n)
  {
    hide Eval, Vars, KeyOf, Groups;
    Eval(KeyExpr(n), Insert(env, fe.loopVar, item), None).val
  }

  ghost function PrefixOf(n: Node, env: Env): Option<string>
    requires Batchable(n)
  {
    hide Eval, Groups;
    EvalPath(Prefix(n.kind.f.path), env).val
  }

  /** The batch `items` holds, for every element of the collection, what its own request returns. */
  ghost predicate Supplies(w: World, fe: ForEachIr, n: Node, env: Env, coll: seq<Value>, items: seq<Value>)
    requires Hoistable(fe, n)
  {
    hide Eval, Vars, Groups;
    PrefixOf(n, env).Some?
    && forall item | item in coll ::
         WantOf(fe, n, env, item).Some?
         && Holds(w, n.kind.f.endpoint, PrefixOf(n, env).value, n.kind.f.batch.value.keyField,
            WantOf(fe, n, env, item).value, items)
  }

  ghost predicate SuppliedBy(w: World, fe: ForEachIr, i: nat, s: nat, env: Env, coll: seq<Value>, batch: Option<Value>)
    requires i < |fe.body.nodes|
  {
    hide *;
    Hoistable(fe, fe.body.nodes[i]) ==>
      batch.Some? && batch.value.Array? && Supplies(w, fe, fe.body.nodes[i], env, coll, batch.value.items)
  }

  /** Every hoisted fetch has its batch at hand in `e`; `env` is the environment before the loop. */
  ghost predicate Supplied(w: World, fe: ForEachIr, s: nat, env: Env, coll: seq<Value>, e: Env) {
    hide *;
    forall i: nat | i < |fe.body.nodes| ::
      SuppliedBy(w, fe, i, s, env, coll, Lookup(e, LoopBatchName(s + PlanCount(fe, i))))
  }

  ghost function LoopNames(fe: ForEachIr, s: nat): set<string> {
    hide *;
    set i: nat | i < |fe.body.nodes| && Hoistable(fe, fe.body.nodes[i]) :: LoopBatchName(s + PlanCount(fe, i))
  }

  /** Two runs in step; the second has saved some requests. */
  ghost predicate Step(r: Run, t: Run, saved: nat, f: set<string>) {
    t.ctl == r.ctl && SameBut(r.env, t.env, f) && Observe(t.evs) == Observe(r.evs)
        && Sends(t.evs) + saved == Sends(r.evs)
  }

  /** One iteration: where it starts, with the loop variable bound to `item`. */
  datatype Turn = Turn(p: Prog, fuel: nat, fe: ForEachIr, s: nat, env: Env, coll: seq<Value>, item: Value, a: Env,
      e: Env, hist: seq<Request>, f: set<string>)
  {
    ghost predicate Valid() {
      hide *;
      && LoopFit(fe) && LoopAvoids(fe, f) && LoopNames(fe, s) <= f && item in coll
      && SameBut(a, e, f) && Supplied(p.world, fe, s, env, coll, e)
      && (forall i: nat | i < |fe.body.nodes|
         && Hoistable(fe, fe.body.nodes[i]) :: KeySeen(fe, fe.body.nodes[i], env, item, a))
    }

    ghost function At(k: nat): Run
      requires k <= |fe.body.nodes|
    {
      hide *;
      RunOrder(p, fuel, fe.body, k, a, hist)
    }

    ghost function Then(k: nat): Run
      requires k <= |HoistedLoop(fe, s).body.nodes|
    {
      hide *;
      RunOrder(p, fuel, HoistedLoop(fe, s).body, k, e, hist)
    }
  }

  /** `a` has the loop variable bound to `item`, and otherwise agrees with `env` on what the key and the
      prefix read. */
  ghost predicate KeySeen(fe: ForEachIr, n: Node, env: Env, item: Value, a: Env)
    requires Hoistable(fe, n)
  {
    hide Vars, KeyOf, Groups;
    Agree(Insert(env, fe.loopVar, item), a, Vars(KeyExpr(n), true))
        && Agree(env, a, PathVars(Prefix(n.kind.f.path), true))
  }

  lemma SameBodyWork(fe: ForEachIr, s: nat, i: nat)
    requires hide *; i < |fe.body.nodes|
    ensures |HoistedLoop(fe, s).body.nodes| == |fe.body.nodes|
    ensures var n := HoistedLoop(fe, s).body.nodes[i];
            n.kind == InLoop(fe, i, s).kind && n.binding == fe.body.nodes[i].binding
                && n.effect == InLoop(fe, i, s).effect
  {
    hide Vars, KeyOf, Groups, Hoistable;
  }

  /** Keys and prefixes keep their values throughout the iteration. */
  lemma {:induction false} StillSeen(t: Turn, k: nat, i: nat)
    requires hide *; t.Valid() && k <= |t.fe.body.nodes| && i < |t.fe.body.nodes| && Hoistable(t.fe, t.fe.body.nodes[i])
    ensures KeySeen(t.fe, t.fe.body.nodes[i], t.env, t.item, t.At(k).env)
  {
    hide RunBody, RunWaves, RunNode, RunLoop, RunMatch, RunTail, NodeStep, RoundStep, LaunchTo, FetchOne, Prepare,
      EvalPath, ApplyPipeline, Vars, KindVars, BodyVars, KeyOf, Groups, HoistedLoop, LoopNames, Eval;
    var n := t.fe.body.nodes[i];
    assert KeySeen(t.fe, n, t.env, t.item, t.a) && HoistPlain(t.fe, n);
    hide Hoistable, RunOrder;
    OrderWithin(t.p, t.fuel, t.fe.body, k, t.a, t.hist);
  }

  /** The fetch sends one request, unseen, and its answer is the element that the scatter picks in `e`. */
  ghost predicate Picked(w: World, fe: ForEachIr, n: Node, a: Env, hist: seq<Request>, batch: Option<Value>, e: Env)
    requires Hoistable(fe, n)
  {
    hide FetchOne, Eval, ApplyPipeline, Vars, KeyOf, Groups;
    var one, want := FetchOne(w, n.kind.f, a, hist), Eval(KeyExpr(n), e, None);
    && one.sent.Some? && one.val.Some? && want.val.Some? && want.out == []
    && Pick(batch, n.kind.f.batch.value.keyField, want.val.value) == one.val.value
  }

  /** A hoisted fetch, in a run that no node fails. */
  lemma HoistedValue(t: Turn, i: nat, r: Run, e: Env)
    requires hide RunBody, RunOrder, RunWaves, RunNode, RoundStep, FetchOne, Eval, ApplyPipeline, Vars, KeyOf, Groups;
             t.Valid() && i < |t.fe.body.nodes| && Hoistable(t.fe, t.fe.body.nodes[i])
    requires r == t.At(i) && r.ctl.Next? && SameBut(r.env, e, t.f)
    requires Lookup(e, LoopBatchName(t.s + PlanCount(t.fe, i))) == Lookup(t.e, LoopBatchName(t.s + PlanCount(t.fe, i)))
    requires FetchOne(t.p.world, t.fe.body.nodes[i].kind.f, r.env, t.hist + Mutations(r.evs)).val.Some?
    ensures Picked(t.p.world, t.fe, t.fe.body.nodes[i], r.env, t.hist + Mutations(r.evs),
                   Lookup(e, LoopBatchName(t.s + PlanCount(t.fe, i))), e)
  {
    hide RunBody, RunWaves, RunNode, RunLoop, RunMatch, RunTail, NodeStep, RoundStep, LaunchTo, Prepare, EvalPath,
      ApplyPipeline, Vars, KindVars, BodyVars, KeyOf, Groups, HoistedLoop, Picked, RunOrder, FetchOne, Eval,
      Hoistable, HoistPlain, KeySeen, Supplies;
    var n := t.fe.body.nodes[i];
    StillSeen(t, i, i);
    KeyAvoids(t, i);
    assert HoistPlain(t.fe, n) && t.item in t.coll;
    assert SuppliedBy(t.p.world, t.fe, i, t.s, t.env, t.coll, Lookup(t.e, LoopBatchName(t.s + PlanCount(t.fe, i))));
    hide Turn.Valid;
    PickedValue(t.p.world, t.fe, n, t.env, t.coll, t.item, r.env, e, t.f, t.hist + Mutations(r.evs),
                Lookup(e, LoopBatchName(t.s + PlanCount(t.fe, i))));
  }

  lemma PickedValue(w: World, fe: ForEachIr, n: Node, env: Env, coll: seq<Value>, item: Value, a: Env, e: Env,
      f: set<string>, hist: seq<Request>, batch: Option<Value>)
    requires hide FetchOne, Eval, ApplyPipeline, Vars, KeyOf, Groups;
             Hoistable(fe, n) && HoistPlain(fe, n) && KeySeen(fe, n, env, item, a) && item in coll
    requires SameBut(a, e, f) && Vars(KeyExpr(n), true) !! f
    requires batch.Some? && batch.value.Array? && Supplies(w, fe, n, env, coll, batch.value.items)
    requires FetchOne(w, n.kind.f, a, hist).val.Some?
    ensures Picked(w, fe, n, a, hist, batch, e)
  {
    hide Prepare, EvalPath, ApplyPipeline, Vars, KeyOf, Groups, HoistedLoop, FetchOne, Eval, RunBody, RunOrder,
      RunWaves, RunNode, RunLoop, RunMatch, LaunchTo, EvalCall, ApplyOp, MatchPattern, LoopBodyNodes;
    assert WantOf(fe, n, env, item).Some? && PrefixOf(n, env).Some?
        && Holds(w, n.kind.f.endpoint, PrefixOf(n, env).value, n.kind.f.batch.value.keyField,
                 WantOf(fe, n, env, item).value, batch.value.items);
    hide Supplies;
    KeyValue(fe, n, env, item, a, e, f);
    SingleFetch(w, n, a, hist);
    QuietId(n);
    QuietEval(KeyExpr(n), e, None);
  }

  lemma KeyAvoids(t: Turn, i: nat)
    requires hide RunBody, RunOrder, RunWaves, RunNode, RoundStep, FetchOne, Eval, Vars, KeyOf, Groups;
             t.Valid() && i < |t.fe.body.nodes| && Hoistable(t.fe, t.fe.body.nodes[i])
    ensures Vars(KeyExpr(t.fe.body.nodes[i]), true) !! t.f
  {
    hide RunBody, RunOrder, RunWaves, RunNode, RunLoop, RunMatch, RunTail, NodeStep, RoundStep, LaunchTo, FetchOne,
      Prepare, EvalPath, Eval, ApplyPipeline, Vars, KindVars, BodyVars, KeyOf, Groups, HoistedLoop, Supplied;
    AvoidsNode(t.fe.body, i, t.f);
    KeyIsUsed(t.fe.body.nodes[i]);
  }

  lemma KeyIsUsed(n: Node)
    requires hide Vars, KeyOf, Groups; Batchable(n) && n.kind.f.path[|n.kind.f.path| - 1].Param?
    ensures Vars(KeyExpr(n), true) <= FetchVars(n.kind.f, true) && IdOf(n) == KeyExpr(n)
  {
    hide Vars, KeyOf, Groups, HoistedLoop;
    var path := n.kind.f.path;
    SplitPath(path);
    PathPart(Prefix(path), path[|path| - 1]);
  }

  /** The key and the prefix in the middle of an iteration, in either run. */
  lemma KeyValue(fe: ForEachIr, n: Node, env: Env, item: Value, a: Env, e: Env, f: set<string>)
    requires hide Eval, Vars, KeyOf, Groups;
             Hoistable(fe, n) && KeySeen(fe, n, env, item, a) && SameBut(a, e, f) && Vars(KeyExpr(n), true) !! f
    ensures Eval(KeyExpr(n), a, None).val == WantOf(fe, n, env, item)
            && Eval(KeyExpr(n), e, None) == Eval(KeyExpr(n), a, None)
    ensures EvalPath(Prefix(n.kind.f.path), a).val == PrefixOf(n, env)
  {
    hide EvalPath, Eval, Vars, KeyOf, Groups, HoistedLoop;
    EvalFrame(KeyExpr(n), Insert(env, fe.loopVar, item), a, None);
    PathFrame(Prefix(n.kind.f.path), env, a);
    EvalSame(KeyExpr(n), a, e, f);
  }

  // ---------- the iteration, node by node ----------

  ghost predicate NamesKept(a: Env, e: Env, f: set<string>) {
    forall x | x in f :: Lookup(a, x) == Lookup(e, x)
  }

  lemma OrderStep(p: Prog, fuel: nat, b: Body, k: nat, env: Env, hist: seq<Request>)
    requires hide RunBody, RunOrder, RunWaves, RunNode, RoundStep, FetchOne, Eval, ApplyPipeline, Groups; k < |b.nodes|
    ensures var r, u := RunOrder(p, fuel, b, k, env, hist), RunOrder(p, fuel, b, k + 1, env, hist);
            && (!r.ctl.Next? ==> u == r)
            && (r.ctl.Next? && IsFetch(b, k) ==>
                  var one := FetchOne(p.world, b.nodes[k].kind.f, r.env, hist + Mutations(r.evs));
                  u == if one.val.None? then Run(r.env, r.evs + FetchEvents(one), Fail(!b.nodes[k].effect))
                       else Run(BindTo(r.env, b.nodes[k].binding, one.val.value), r.evs + FetchEvents(one), r.ctl))
            && (r.ctl.Next? && !IsFetch(b, k)
               ==> u == Append(r, RunNode(p, InOrder, fuel, b, b.nodes[k], r.env, hist + Mutations(r.evs))))
  {
    hide RunLoop, RunMatch, LaunchTo, Prepare, Eval, ApplyPipeline, Vars, KeyOf, Groups, RunNode, FetchOne;
    var r := RunOrder(p, fuel, b, k, env, hist);
    if IsFetch(b, k) && r.ctl.Next? { SingleRound(p, b, k, r, hist); }
  }

  lemma SeenAlike(r: Run, u: Run, es: seq<Event>)
    requires Observe(u.evs) == Observe(r.evs)
    ensures Observe(u.evs + es) == Observe(r.evs + es)
            && Sends(u.evs + es) - Sends(u.evs) == Sends(r.evs + es) - Sends(r.evs)
    ensures Mutations(u.evs) == Mutations(r.evs)
  {
    ObserveAppend(r.evs, es); ObserveAppend(u.evs, es);
    SendsAppend(r.evs, es); SendsAppend(u.evs, es);
    MutationsObserved(r.evs); MutationsObserved(u.evs);
  }

  lemma WritesAvoid(t: Turn, i: nat)
    requires hide *; t.Valid() && i < |t.fe.body.nodes|
    ensures Writes(t.fe.body.nodes[i]) !! t.f && NoRetry(t.fe.body.nodes[i].kind)
            && AvoidsKind(t.fe.body.nodes[i].kind, t.f)
  {
    hide RunBody, RunOrder, RunWaves, RunNode, RunLoop, RunMatch, RunTail, NodeStep, RoundStep, LaunchTo, FetchOne,
      Prepare, EvalPath, Eval, ApplyPipeline, Vars, KindVars, BodyVars, KeyOf, Groups, HoistedLoop;
    NodeWritesIn(t.fe.body.nodes, i);
    AvoidsNode(t.fe.body, i, t.f);
  }

  lemma WithinKeeps(a: Env, e: Env, names: set<string>, f: set<string>)
    requires Within(a, e, names) && names !! f
    ensures NamesKept(a, e, f)
  {
  }

  /** A fetch that is not hoisted. */
  lemma OtherFetch(t: Turn, i: nat, saved: nat)
    requires hide *; t.Valid() && i < |t.fe.body.nodes| && !Hoistable(t.fe, t.fe.body.nodes[i]) && t.At(i).ctl.Next?
    requires |HoistedLoop(t.fe, t.s).body.nodes| == |t.fe.body.nodes| && t.fe.body.nodes[i].kind.FetchN?
    requires Step(t.At(i), t.Then(i), saved, t.f)
    ensures Step(t.At(i + 1), t.Then(i + 1), saved, t.f) && NamesKept(t.Then(i).env, t.Then(i + 1).env, t.f)
  {
    hide FetchVars, Eval, KeySeen, Within, RunOrder, RunNode, FetchOne, Observe, Sends, Hoistable, Writes;
    var b, d := t.fe.body, HoistedLoop(t.fe, t.s).body;
    var n := b.nodes[i];
    SameBodyWork(t.fe, t.s, i);
    WritesAvoid(t, i);
    OrderStep(t.p, t.fuel, b, i, t.a, t.hist);
    OrderStep(t.p, t.fuel, d, i, t.e, t.hist);
    hide HoistedLoop;
    var r, u := t.At(i), t.Then(i);
    SeenAlike(r, u, []);
    var h := t.hist + Mutations(r.evs);
    FetchSame(t.p.world, n.kind.f, r.env, u.env, t.f, h);
    SeenAlike(r, u, FetchEvents(FetchOne(t.p.world, n.kind.f, r.env, h)));
    BindWrites(u.env, n, FetchOne(t.p.world, n.kind.f, r.env, h));
    if t.Then(i + 1).env != u.env { WithinKeeps(u.env, t.Then(i + 1).env, Writes(n), t.f); }
  }

  /** A node that is not hoisted. */
  lemma OtherNode(t: Turn, i: nat, saved: nat)
    requires hide *; t.Valid() && i < |t.fe.body.nodes| && !Hoistable(t.fe, t.fe.body.nodes[i]) && t.At(i).ctl.Next?
    requires |HoistedLoop(t.fe, t.s).body.nodes| == |t.fe.body.nodes|
    requires Step(t.At(i), t.Then(i), saved, t.f)
    ensures Step(t.At(i + 1), t.Then(i + 1), saved, t.f) && NamesKept(t.Then(i).env, t.Then(i + 1).env, t.f)
  {
    hide FetchVars, Eval, KeySeen, Within, RunOrder, RunNode, FetchOne, Observe, Sends, Hoistable, Writes;
    if t.fe.body.nodes[i].kind.FetchN? { OtherFetch(t, i, saved); return; }
    var b, d := t.fe.body, HoistedLoop(t.fe, t.s).body;
    var n, m := b.nodes[i], d.nodes[i];
    SameBodyWork(t.fe, t.s, i);
    assert m.kind == n.kind && m.binding == n.binding && m.effect == n.effect;
    WritesAvoid(t, i);
    OrderStep(t.p, t.fuel, b, i, t.a, t.hist);
    OrderStep(t.p, t.fuel, d, i, t.e, t.hist);
    hide HoistedLoop;
    var r, u := t.At(i), t.Then(i);
    SeenAlike(r, u, []);
    var h := t.hist + Mutations(r.evs);
    AvoidsBody(t);
    NodeIgnoresBody(t.p, InOrder, t.fuel, d, b, m, n, u.env, h);
    NodeUnseen(t.p, t.fuel, b, n, r.env, u.env, h, t.f);
    NodeWithin(t.p, InOrder, t.fuel, b, n, u.env, h);
    SeenAlike(r, u, RunNode(t.p, InOrder, t.fuel, b, n, r.env, h).evs);
    WithinKeeps(u.env, RunNode(t.p, InOrder, t.fuel, b, n, u.env, h).env, Writes(n), t.f);
  }

  lemma AvoidsBody(t: Turn)
    requires t.Valid()
    ensures Avoids(t.fe.body, t.f)
  {
    hide RunBody, RunOrder, RunWaves, RunNode, RunLoop, RunMatch, RunTail, NodeStep, RoundStep, LaunchTo, FetchOne,
      Prepare, EvalPath, Eval, ApplyPipeline, Vars, KindVars, BodyVars, KeyOf, Groups, HoistedLoop;
  }

  lemma BindWrites(env: Env, n: Node, one: Fetched)
    ensures hide *; one.val.Some? ==> Within(env, BindTo(env, n.binding, one.val.value), Writes(n))
  {
    hide Vars, KeyOf, Groups, HoistedLoop;
  }

  /** The fetch that hoisting replaces: unless it fails, it binds its answer, unseen, with one request. */
  lemma FetchSide(t: Turn, i: nat)
    requires hide RunBody, RunOrder, RunWaves, RunNode, RoundStep, FetchOne, Eval, ApplyPipeline, Vars, KeyOf, Groups;
             t.Valid() && i < |t.fe.body.nodes| && Hoistable(t.fe, t.fe.body.nodes[i]) && t.At(i).ctl.Next?
    requires t.At(i + 1).ctl != Fail(true)
    ensures var r, u, n := t.At(i), t.At(i + 1), t.fe.body.nodes[i];
            var one := FetchOne(t.p.world, n.kind.f, r.env, t.hist + Mutations(r.evs));
            && one.val.Some? && u.env == BindTo(r.env, n.binding, one.val.value) && u.ctl == r.ctl
            && u.evs == r.evs + FetchEvents(one) && Observe(FetchEvents(one)) == []
  {
    hide RunBody, RunWaves, RunNode, RunLoop, RunMatch, RunTail, NodeStep, RoundStep, LaunchTo, Prepare, EvalPath,
      Eval, ApplyPipeline, Vars, KindVars, BodyVars, KeyOf, Groups, HoistedLoop, RunOrder, FetchOne, FetchEvents,
      Observe;
    MemberQuiet(t, i);
    hide Turn.Valid, Hoistable, QuietFetch;
    OrderStep(t.p, t.fuel, t.fe.body, i, t.a, t.hist);
    QuietGetUnobserved(t.p.world, t.fe.body.nodes[i].kind.f, t.At(i).env, t.hist + Mutations(t.At(i).evs));
  }

  /** The scatter in its place. */
  lemma ScatterSide(t: Turn, i: nat)
    requires hide RunBody, RunOrder, RunWaves, RunNode, RoundStep, FetchOne, Eval, ApplyPipeline, Vars, KeyOf, Groups;
             t.Valid() && i < |t.fe.body.nodes| && Hoistable(t.fe, t.fe.body.nodes[i]) && t.At(i).ctl.Next?
    requires |HoistedLoop(t.fe, t.s).body.nodes| == |t.fe.body.nodes| && t.Then(i).ctl.Next?
    requires SameBut(t.At(i).env, t.Then(i).env, t.f) && NamesKept(t.e, t.Then(i).env, t.f)
    requires FetchOne(t.p.world, t.fe.body.nodes[i].kind.f, t.At(i).env, t.hist + Mutations(t.At(i).evs)).val.Some?
    ensures var r, u, n := t.At(i), t.Then(i), t.fe.body.nodes[i];
            var one := FetchOne(t.p.world, n.kind.f, r.env, t.hist + Mutations(r.evs));
            one.sent.Some? && t.Then(i + 1) == Run(BindTo(u.env, n.binding, one.val.value), u.evs, u.ctl)
  {
    hide RunBody, RunWaves, RunNode, RunLoop, RunMatch, RunTail, NodeStep, RoundStep, LaunchTo, Prepare, EvalPath,
      ApplyPipeline, Vars, KindVars, BodyVars, KeyOf, Groups, RunOrder, FetchOne, Eval, Mutations, Turn.Valid,
      SameBut;
    var d, n := HoistedLoop(t.fe, t.s).body, t.fe.body.nodes[i];
    SameBodyWork(t.fe, t.s, i);
    NameIn(t, i);
    var r, u := t.At(i), t.Then(i);
    HoistedValue(t, i, r, u.env);
    var one := FetchOne(t.p.world, n.kind.f, r.env, t.hist + Mutations(r.evs));
    assert d.nodes[i].kind == LoopScatterNode(t.fe, n, t.s + PlanCount(t.fe, i)).kind;
    hide HoistedLoop, Hoistable;
    OrderStep(t.p, t.fuel, d, i, t.e, t.hist);
    ScatterBinds(t.p, t.fuel, d, d.nodes[i], u.env, t.hist + Mutations(u.evs), one.val.value);
    assert u.evs + [] == u.evs;
  }

  /** A hoisted node: the fetch on one side, the scatter on the other. */
  lemma HoistedNode(t: Turn, i: nat, saved: nat)
    requires hide *; t.Valid() && i < |t.fe.body.nodes| && Hoistable(t.fe, t.fe.body.nodes[i]) && t.At(i).ctl.Next?
    requires |HoistedLoop(t.fe, t.s).body.nodes| == |t.fe.body.nodes| && t.At(i + 1).ctl != Fail(true)
    requires Step(t.At(i), t.Then(i), saved, t.f) && NamesKept(t.e, t.Then(i).env, t.f)
    ensures t.At(i + 1).ctl.Next?
    ensures Step(t.At(i + 1), t.Then(i + 1), saved + 1, t.f) && NamesKept(t.Then(i).env, t.Then(i + 1).env, t.f)
  {
    hide RunBody, RunWaves, RunNode, RunLoop, RunMatch, RunTail, NodeStep, RoundStep, LaunchTo, Prepare, EvalPath,
      Eval, ApplyPipeline, Vars, KindVars, BodyVars, KeyOf, Groups, RunOrder, FetchOne, FetchEvents, Observe, Sends,
      Mutations, Turn.Valid, Hoistable, HoistedLoop, Writes;
    var n := t.fe.body.nodes[i];
    WritesAvoid(t, i);
    MemberQuiet(t, i);
    FetchSide(t, i);
    ScatterSide(t, i);
    var r, u := t.At(i), t.Then(i);
    var one := FetchOne(t.p.world, n.kind.f, r.env, t.hist + Mutations(r.evs));
    FetchCounted(r.evs, one);
    BindWrites(u.env, n, one);
    WithinKeeps(u.env, BindTo(u.env, n.binding, one.val.value), Writes(n), t.f);
  }

  lemma MemberQuiet(t: Turn, i: nat)
    requires hide RunBody, RunOrder, RunWaves, RunNode, RoundStep, FetchOne, Eval, Vars, Groups;
             t.Valid() && i < |t.fe.body.nodes| && Hoistable(t.fe, t.fe.body.nodes[i])
    ensures QuietFetch(t.fe.body.nodes[i].kind.f) && t.fe.body.nodes[i].kind.f.httpMethod == "GET"
            && !t.fe.body.nodes[i].effect
    ensures IsFetch(t.fe.body, i)
  {
    hide RunBody, RunOrder, RunWaves, RunNode, RunLoop, RunMatch, RunTail, NodeStep, RoundStep, LaunchTo, FetchOne,
      Prepare, EvalPath, Eval, ApplyPipeline, Vars, KindVars, BodyVars, KeyOf, Groups, HoistedLoop;
    assert HoistPlain(t.fe, t.fe.body.nodes[i]);
  }

  lemma NameIn(t: Turn, i: nat)
    requires hide *; t.Valid() && i < |t.fe.body.nodes| && Hoistable(t.fe, t.fe.body.nodes[i])
    ensures LoopBatchName(t.s + PlanCount(t.fe, i)) in t.f
  {
    hide Turn.Valid, LoopNames, Hoistable;
    ValidNames(t);
    NamedInLoop(t.fe, t.s, i);
  }

  lemma ValidNames(t: Turn)
    requires t.Valid()
    ensures LoopNames(t.fe, t.s) <= t.f
  {
    hide LoopNames, LoopFit, LoopAvoids, Supplied, SameBut, KeySeen, Hoistable;
  }

  lemma NamedInLoop(fe: ForEachIr, s: nat, i: nat)
    requires hide *; i < |fe.body.nodes| && Hoistable(fe, fe.body.nodes[i])
    ensures LoopBatchName(s + PlanCount(fe, i)) in LoopNames(fe, s)
  {
    hide Hoistable;
  }

  lemma FetchCounted(evs: seq<Event>, one: Fetched)
    requires one.sent.Some? && Observe(FetchEvents(one)) == []
    ensures Observe(evs + FetchEvents(one)) == Observe(evs) && Sends(evs + FetchEvents(one)) == Sends(evs) + 1
  {
    ObserveAppend(evs, FetchEvents(one));
    SendsAppend(evs, FetchEvents(one));
    LaunchSends(Launch(one.before, [one.sent.value], one.after, map[]));
  }

  lemma ScatterBinds(p: Prog, fuel: nat, b: Body, m: Node, env: Env, hist: seq<Request>, v: Value)
    requires hide *;
             m.kind.ScatterN? && Eval(m.kind.want, env, None).val.Some? && Eval(m.kind.want, env, None).out == []
    requires Pick(Lookup(env, m.kind.batch), m.kind.keyField, Eval(m.kind.want, env, None).val.value) == v
    ensures RunNode(p, InOrder, fuel, b, m, env, hist) == Run(BindTo(env, m.binding, v), [], Next(None))
  {
    hide FetchOne, Prepare, ApplyPipeline, Vars, KeyOf, Eval;
    assert Prints([]) == [];
  }

  /** Node by node, the two runs stay in step; every hoisted fetch passed is a request saved. */
  lemma {:induction false} BodySteps(t: Turn, k: nat) returns (saved: nat)
    requires hide *; t.Valid() && k <= |t.fe.body.nodes| && t.At(k).ctl != Fail(true)
    ensures |HoistedLoop(t.fe, t.s).body.nodes| == |t.fe.body.nodes|
    ensures Step(t.At(k), t.Then(k), saved, t.f) && NamesKept(t.e, t.Then(k).env, t.f)
    ensures saved <= PlanCount(t.fe, k) && (t.At(k).ctl.Next? ==> saved == PlanCount(t.fe, k))
    decreases k
  {
    hide RunBody, RunWaves, RunNode, RunLoop, RunMatch, RunTail, NodeStep, RoundStep, LaunchTo, FetchOne, Prepare,
      EvalPath, Eval, ApplyPipeline, Vars, KindVars, BodyVars, KeyOf, Groups, RunOrder, Turn.Valid, Observe, Sends,
      Hoistable, HoistedLoop, SameBut;
    if k == 0 {
      saved := 0;
      StartStep(t);
    } else {
      var i := k - 1;
      SameBodyWork(t.fe, t.s, i);
      StopsAlike(t, i);
      saved := BodySteps(t, i);
      if t.At(i).ctl.Next? {
        if Hoistable(t.fe, t.fe.body.nodes[i]) {
          HoistedNode(t, i, saved);
          saved := saved + 1;
        } else {
          OtherNode(t, i, saved);
        }
      }
    }
  }

  lemma StartStep(t: Turn)
    requires hide *; t.Valid()
    ensures |HoistedLoop(t.fe, t.s).body.nodes| == |t.fe.body.nodes|
    ensures Step(t.At(0), t.Then(0), 0, t.f) && NamesKept(t.e, t.Then(0).env, t.f)
  {
    hide RunNode, RunLoop, RunMatch, LaunchTo, FetchOne, Prepare, Eval, ApplyPipeline, Vars, KeyOf, Groups,
      Supplied, LoopFit, LoopAvoids, Hoistable;
  }

  lemma StopsAlike(t: Turn, i: nat)
    requires hide *; i < |t.fe.body.nodes| && |HoistedLoop(t.fe, t.s).body.nodes| == |t.fe.body.nodes|
    ensures !t.At(i).ctl.Next? ==> t.At(i + 1) == t.At(i)
    ensures !t.Then(i).ctl.Next? ==> t.Then(i + 1) == t.Then(i)
  {
    hide RunBody, RunWaves, RunLoop, RunMatch, RunTail, NodeStep, RoundStep, LaunchTo, Prepare, EvalPath, Eval,
      ApplyPipeline, Vars, KeyOf, Groups, RunOrder, RunNode, FetchOne, HoistedLoop;
    OrderStep(t.p, t.fuel, t.fe.body, i, t.a, t.hist);
    OrderStep(t.p, t.fuel, HoistedLoop(t.fe, t.s).body, i, t.e, t.hist);
  }
}
