/** Loop fusion against the reference run: one request before the loop, or none when there is nothing to
    iterate over, instead of one per element. */
module LoopFusionRun {
  import opened Wrappers
  import opened Ast
  import opened Values
  import opened Evaluator
  import opened Frames
  import opened Ir
  import opened Exec
  import Elements
  import opened Quiet
  import opened Traces
  import opened ReferenceRun
  import opened BodyEquality
  import opened FreshNames
  import opened Fusion
  import opened FusionMeaning
  import opened LoopFusion
  import opened LoopFusionBody
  import opened LoopFusionLoop

  // ---------- the mapped batch ----------

  /** The endpoint keeps its batch promise for the loop: every key can be evaluated, what comes back for
      one key carries it, and the batched answer agrees with the single ones. */
  ghost predicate LoopServed(w: World, fe: ForEachIr, n: Node, env: Env, coll: seq<Value>)
    requires Hoistable(fe, n)
  {
    hide Eval, Vars, Groups;
    var f := n.kind.f;
    && PrefixOf(n, env).Some?
    && (forall item | item in coll ::
          WantOf(fe, n, env, item).Some?
          && Keyed(w, f.endpoint, PrefixOf(n, env).value, f.batch.value.keyField, WantOf(fe, n, env, item).value))
    && BatchContract(w, f.endpoint, f.batch.value.queryParam, f.batch.value.keyField)
  }

  lemma {:induction false} KeysAre(m: MappedIds, items: seq<Value>, env: Env, wants: seq<Value>)
    requires hide *; Elements.Elementless(m.key) && |wants| == |items|
    requires forall j | 0 <= j < |items| :: Eval(m.key, Insert(env, m.loopVar, items[j]), None).val == Some(wants[j])
    ensures EvalKeys(m, items, env).val == Some(Displays(wants))
  {
    hide Vars, KeyOf, Groups, HoistedLoop, Eval;
    if items == [] {
      assert Displays(wants) == [];
    } else {
      var inner := Insert(env, m.loopVar, items[0]);
      Elements.ElementIgnored(m.key, inner, None, Some(items[0]));
      assert Eval(m.key, inner, None).val == Some(wants[0]);
      forall j | 0 <= j < |items[1..]|
          ensures Eval(m.key, Insert(env, m.loopVar, items[1..][j]), None).val == Some(wants[1..][j]) {
        assert items[1..][j] == items[j + 1];
      }
      KeysAre(m, items[1..], env, wants[1..]);
      assert Displays(wants) == [wants[0].Display()] + Displays(wants[1..]);
    }
  }

  ghost function WantsOf(fe: ForEachIr, n: Node, env: Env, coll: seq<Value>): seq<Value>
    requires Hoistable(fe, n) && forall item | item in coll :: WantOf(fe, n, env, item).Some?
  {
    hide *;
    seq(|coll|, j requires 0 <= j < |coll| => assert coll[j] in coll; WantOf(fe, n, env, coll[j]).value)
  }

  /** The request a mapped batch makes: none for an empty collection. */
  lemma MappedPrepare(fe: ForEachIr, n: Node, env: Env, coll: seq<Value>)
    requires hide Eval, Vars, KeyOf, Groups;
             Hoistable(fe, n) && Elements.Elementless(KeyExpr(n)) && PrefixOf(n, env).Some?
    requires Eval(fe.iter, env, None).val.Some? && coll == Eval(fe.iter, env, None).val.value.Items()
    requires forall item | item in coll :: WantOf(fe, n, env, item).Some?
    ensures Prepare(LoopBatchFetch(fe, n), env).val ==
            Some(if coll == [] then None
                 else Some(BatchRequest(n.kind.f.endpoint, PrefixOf(n, env).value, n.kind.f.batch.value.queryParam,
                     WantsOf(fe, n, env, coll))))
  {
    var f, spec := LoopBatchFetch(fe, n), LoopBatchFetch(fe, n).batch.value;
    var m := spec.mapped.value;
    var wants := WantsOf(fe, n, env, coll);
    KeysAre(m, coll, env, wants);
    assert f.path != [];
    hide Eval, EvalPath, EvalKeys, Hoistable, Batchable;
    assert EvalParams([], env) == Done(multiset{});
    assert |Displays(wants)| == |coll|;
    var none: multiset<(string, string)> := multiset{};
    if coll != [] {
      assert EvalIds(f.batch, env).val == Some(Some(Displays(wants)));
      assert none + multiset{(spec.queryParam, Join(Displays(wants)))}
          == multiset{(spec.queryParam, Join(Displays(wants)))};
    }
  }

  /** A mapped batch binds an array with the answer for every element, in one request, or in none when
      there is no element. */
  lemma MappedFetch(w: World, fe: ForEachIr, n: Node, env: Env, coll: seq<Value>, hist: seq<Request>)
    requires hide *; Hoistable(fe, n) && HoistPlain(fe, n) && LoopServed(w, fe, n, env, coll)
    requires Eval(fe.iter, env, None).val.Some? && coll == Eval(fe.iter, env, None).val.value.Items()
    ensures var r := FetchOne(w, LoopBatchFetch(fe, n), env, hist);
            && r.val.Some? && r.val.value.Array? && Supplies(w, fe, n, env, coll, r.val.value.items)
            && (r.sent.Some? <==> coll != [])
  {
    hide ApplyPipeline;
    assert Batchable(n);
    hide Hoistable, Batchable, Eval, EvalPath;
    var f := LoopBatchFetch(fe, n);
    MappedPrepare(fe, n, env, coll);
    if coll != [] {
      var wants := WantsOf(fe, n, env, coll);
      forall v | v in wants ensures Keyed(w, f.endpoint, PrefixOf(n, env).value, f.batch.value.keyField, v) {
        var j: nat :| j < |wants| && wants[j] == v;
        assert coll[j] in coll;
      }
      BatchGet(w, f, env, hist);
      var req := BatchRequest(f.endpoint, PrefixOf(n, env).value, f.batch.value.queryParam, wants);
      var o := w.get(req);
      assert o.Success? && o.v.Array?;
      forall item | item in coll
        ensures Holds(w, f.endpoint, PrefixOf(n, env).value, f.batch.value.keyField, WantOf(fe, n, env, item).value,
                o.v.items)
      {
        var j: nat :| j < |coll| && coll[j] == item;
        assert wants[j] in wants;
      }
    }
  }

  lemma BatchGet(w: World, f: FetchIr, env: Env, hist: seq<Request>)
    requires hide *; f.httpMethod == "GET" && f.pipeline == [] && !f.asResult && f.contract.None?
    requires Prepare(f, env).val.Some? && Prepare(f, env).val.value.Some?
             && Prepare(f, env).val.value.value.httpMethod == "GET"
    ensures var o, r := w.get(Prepare(f, env).val.value.value), FetchOne(w, f, env, hist);
            r.sent.Some? && r.val == (if o.Success? then Some(o.v) else None)
  {
    hide *;
    PlainFinish(w, f, env, hist);
  }

  /** It prints nothing, and reads what the loop reads. */
  lemma MappedClean(fe: ForEachIr, n: Node, f: set<string>)
    requires hide Vars, KeyOf, Groups; Hoistable(fe, n) && HoistPlain(fe, n) && Quiet.Quiet(fe.iter)
    requires Vars(fe.iter, true) !! f && FetchVars(n.kind.f, true) !! f
    ensures QuietFetch(LoopBatchFetch(fe, n)) && FetchVars(LoopBatchFetch(fe, n), true) !! f
  {
    hide KeyOf, Groups, HoistedLoop;
    QuietId(n);
    KeyIsUsed(n);
    PrefixIsUsed(n);
    hide Vars, Quiet.Quiet, PathVars;
    var g := LoopBatchFetch(fe, n);
    assert FetchVars(g, true) == PathVars(g.path, true) + Vars(fe.iter, true) + (Vars(KeyExpr(n), true) - {fe.loopVar});
  }

  lemma PrefixIsUsed(n: Node)
    requires hide Vars, Groups; Batchable(n)
    ensures PathVars(Prefix(n.kind.f.path), true) <= FetchVars(n.kind.f, true)
  {
    hide Vars, KeyOf, Groups, HoistedLoop;
    var path := n.kind.f.path;
    SplitPath(path);
    PathPart(Prefix(path), path[|path| - 1]);
  }

  // ---------- the body around the loops ----------

  /** The names given out for the batches. */
  ghost function AllNames(nodes: seq<Node>, s: nat): set<string> {
    hide *;
    set x: nat | s <= x < NextName(nodes, |nodes|, s) :: LoopBatchName(x)
  }

  ghost predicate LoopsReady(b: Body, s: nat) {
    hide Vars, Groups;
    && Avoids(b, AllNames(b.nodes, s))
    && forall i: nat | i < |b.nodes| ::
         && NoRetry(b.nodes[i].kind) && Writes(b.nodes[i]) !! AllNames(b.nodes, s)
         && (FusesLoop(b.nodes[i]) ==> LoopFit(b.nodes[i].kind.fe))
  }

  /** The collection a reached loop iterates over. */
  ghost function CollAt(c: Setup, i: nat): Option<Value>
    requires i < |c.b.nodes| && c.b.nodes[i].kind.ForEachN?
  {
    hide *;
    Eval(c.b.nodes[i].kind.fe.iter, c.At(i).env, None).val
  }

  ghost predicate LoopsServed(c: Setup) {
    hide *;
    forall i: nat | i < |c.b.nodes| && FusesLoop(c.b.nodes[i]) && c.At(i).ctl.Next? :: LoopAtServed(c, i)
  }

  ghost predicate LoopAtServed(c: Setup, i: nat)
    requires i < |c.b.nodes| && FusesLoop(c.b.nodes[i])
  {
    hide *;
    var fe := c.b.nodes[i].kind.fe;
    CollAt(c, i).Some?
    && forall j: nat | j < |fe.body.nodes| && Hoistable(fe, fe.body.nodes[j]) ::
         LoopServed(c.p.world, fe, fe.body.nodes[j], c.At(i).env, CollAt(c, i).value.Items())
  }

  lemma {:induction false} NextNameGrows(nodes: seq<Node>, i: nat, k: nat, s: nat)
    requires hide *; i <= k <= |nodes|
    ensures s <= NextName(nodes, i, s) <= NextName(nodes, k, s)
  {
    hide Vars, KeyOf, Groups, HoistedLoop, FusesLoop;
    if i > 0 { NextNameGrows(nodes, i - 1, i - 1, s); }
    if i < k { NextNameGrows(nodes, i, k - 1, s); }
  }

  lemma {:induction false} PlanCountGrows(fe: ForEachIr, j: nat, k: nat)
    requires hide *; j <= k <= |fe.body.nodes|
    ensures PlanCount(fe, j) <= PlanCount(fe, k)
    ensures j < k && Hoistable(fe, fe.body.nodes[j]) ==> PlanCount(fe, j) < PlanCount(fe, k)
  {
    hide Hoistable;
    if j < k { PlanCountGrows(fe, j, k - 1); }
  }

  /** The names of one loop are among those given out. */
  lemma NamesOfLoop(nodes: seq<Node>, i: nat, s: nat)
    requires hide Vars, Groups; i < |nodes| && FusesLoop(nodes[i])
    ensures LoopNames(nodes[i].kind.fe, NextName(nodes, i, s)) <= AllNames(nodes, s)
  {
    hide Vars, KeyOf, Groups, HoistedLoop;
    var fe, from := nodes[i].kind.fe, NextName(nodes, i, s);
    NextNameGrows(nodes, i, i, s);
    NextNameGrows(nodes, i + 1, |nodes|, s);
    var top := NextName(nodes, |nodes|, s);
    assert from + Plans(fe) <= top;
    hide NextName, Hoistable, FusesLoop, LoopBatchName;
    forall x | x in LoopNames(fe, from) ensures x in AllNames(nodes, s) {
      var j: nat :| j < |fe.body.nodes| && Hoistable(fe, fe.body.nodes[j])
          && x == LoopBatchName(from + PlanCount(fe, j));
      PlanCountGrows(fe, j, |fe.body.nodes|);
      assert s <= from + PlanCount(fe, j) < top;
    }
  }

  lemma LoopNamesDistinct(x: nat, y: nat)
    requires LoopBatchName(x) == LoopBatchName(y)
    ensures x == y
  {
    var p := "__loopbatch_";
    assert LoopBatchName(x)[|p|..] == NatText(x) && LoopBatchName(y)[|p|..] == NatText(y);
    NatTextInjective(x, y);
  }

  /** What is known of a loop that is fused. */
  lemma FusedLoopFits(b: Body, i: nat, s: nat)
    requires hide Vars, KeyOf, Groups; LoopsReady(b, s) && i < |b.nodes| && FusesLoop(b.nodes[i])
    ensures var fe, f := b.nodes[i].kind.fe, AllNames(b.nodes, s);
            LoopFit(fe) && LoopAvoids(fe, f) && LoopNames(fe, NextName(b.nodes, i, s)) <= f && Vars(fe.iter, true) !! f
  {
    hide Vars, KeyOf, Groups, HoistedLoop;
    NamesOfLoop(b.nodes, i, s);
    AvoidsNode(b, i, AllNames(b.nodes, s));
    LoopWrites(b.nodes[i]);
  }

  lemma LoopWrites(n: Node)
    requires hide *; n.kind.ForEachN?
    ensures BodyWrites(n.kind.fe.body) + {n.kind.fe.loopVar} <= Writes(n)
  {
  }

  // ---------- running the batches ----------

  /** Node `at` of the rewritten list does the work of `n`. */
  predicate DoesWork(nodes: seq<Node>, at: nat, n: Node) {
    at < |nodes| && nodes[at].kind == n.kind && nodes[at].binding == n.binding && nodes[at].effect == n.effect
  }

  /** The batches of loop `fe` stand in `nodes` from position `at` on. */
  ghost predicate BatchesPlaced(nodes: seq<Node>, fe: ForEachIr, s: nat, at: nat) {
    hide *;
    forall j: nat | j < |fe.body.nodes| && Hoistable(fe, fe.body.nodes[j]) ::
      DoesWork(nodes, at + PlanCount(fe, j), LoopBatchNode(fe, fe.body.nodes[j], s + PlanCount(fe, j), 0))
  }

  /** A loop about to be run, with its batches before it in `d`. */
  datatype Hoist = Hoist(p: Prog, fuel: nat, d: Body, at: nat, fe: ForEachIr, s: nat, coll: seq<Value>, a: Env,
      ed: Env, hist: seq<Request>, f: set<string>)
  {
    ghost function Then(k: nat): Run
      requires k <= |d.nodes|
    {
      hide *;
      RunOrder(p, fuel, d, k, ed, hist)
    }

    ghost predicate Valid() {
      hide *;
      && LoopFit(fe) && LoopAvoids(fe, f) && LoopNames(fe, s) <= f && Vars(fe.iter, true) !! f
      && Eval(fe.iter, a, None).val.Some? && coll == Eval(fe.iter, a, None).val.value.Items()
      && BatchesPlaced(d.nodes, fe, s, at) && at + Plans(fe) <= |d.nodes|
      && Then(at).ctl.Next? && SameBut(a, Then(at).env, f)
      && forall j: nat | j < |fe.body.nodes|
         && Hoistable(fe, fe.body.nodes[j]) :: LoopServed(p.world, fe, fe.body.nodes[j], a, coll)
    }
  }

  /** After the batches of the first `k` nodes of the loop body. */
  ghost predicate Batched(h: Hoist, k: nat, t: Run) {
    hide *;
    && k <= |h.fe.body.nodes| && h.at <= |h.d.nodes|
    && t.ctl == h.Then(h.at).ctl && SameBut(h.a, t.env, h.f) && Observe(t.evs) == Observe(h.Then(h.at).evs)
    && Sends(t.evs) == Sends(h.Then(h.at).evs) + (if h.coll == [] then 0 else PlanCount(h.fe, k))
    && forall j: nat | j < k ::
       SuppliedBy(h.p.world, h.fe, j, h.s, h.a, h.coll, Lookup(t.env, LoopBatchName(h.s + PlanCount(h.fe, j))))
  }

  lemma OneBatch(h: Hoist, k: nat, t: Run)
    requires hide *; h.Valid() && k < |h.fe.body.nodes| && Hoistable(h.fe, h.fe.body.nodes[k])
    requires h.at + PlanCount(h.fe, k) < |h.d.nodes| && t == h.Then(h.at + PlanCount(h.fe, k)) && Batched(h, k, t)
    ensures Batched(h, k + 1, h.Then(h.at + PlanCount(h.fe, k) + 1))
  {
    hide *;
    var n := h.fe.body.nodes[k];
    ReachedBatch(h, k, t);
    BatchSide(h, k, t);
    var one := FetchOne(h.p.world, LoopBatchFetch(h.fe, n), t.env, h.hist + Mutations(t.evs));
    HoistNames(h);
    NamedInLoop(h.fe, h.s, k);
    BatchedNext(h, k, t, one);
  }

  /** The state after one more batch has been bound. */
  lemma BatchedNext(h: Hoist, k: nat, t: Run, one: Fetched)
    requires hide *;
             k < |h.fe.body.nodes| && Hoistable(h.fe, h.fe.body.nodes[k]) && h.at <= |h.d.nodes| && Batched(h, k, t)
             && one.val.Some?
    requires SuppliedBy(h.p.world, h.fe, k, h.s, h.a, h.coll, one.val) && LoopBatchName(h.s + PlanCount(h.fe, k)) in h.f
    requires Observe(FetchEvents(one)) == [] && Sends(FetchEvents(one)) == if h.coll == [] then 0 else 1
    ensures Batched(h, k + 1,
            Run(Insert(t.env, LoopBatchName(h.s + PlanCount(h.fe, k)), one.val.value), t.evs + FetchEvents(one), t.ctl))
  {
    hide RunBody, RunWaves, RunNode, RunLoop, RunMatch, RunTail, NodeStep, RoundStep, LaunchTo, FetchOne, Prepare,
      EvalPath, Eval, ApplyPipeline, Vars, KeyOf, Groups, HoistedLoop, RunOrder, FetchEvents, Observe, Sends,
      SuppliedBy, LoopBatchName, Hoistable;
    ObserveAppend(t.evs, FetchEvents(one));
    SendsAppend(t.evs, FetchEvents(one));
    OneMoreName(h, k, t.env, one.val);
    OneMorePlan(h.fe, k);
    hide PlanCount;
  }

  lemma OneMorePlan(fe: ForEachIr, k: nat)
    requires hide *; k < |fe.body.nodes| && Hoistable(fe, fe.body.nodes[k])
    ensures PlanCount(fe, k + 1) == PlanCount(fe, k) + 1
  {
    hide Hoistable;
  }

  lemma ReachedBatch(h: Hoist, k: nat, t: Run)
    requires h.Valid() && k <= |h.fe.body.nodes| && Batched(h, k, t)
    ensures t.ctl.Next? && SameBut(h.a, t.env, h.f)
  {
    hide RunBody, RunOrder, RunWaves, RunNode, RunLoop, RunMatch, RunTail, NodeStep, RoundStep, LaunchTo, FetchOne,
      Prepare, EvalPath, Eval, ApplyPipeline, Vars, KindVars, BodyVars, KeyOf, Groups, HoistedLoop;
  }

  lemma HoistNames(h: Hoist)
    requires h.Valid()
    ensures LoopNames(h.fe, h.s) <= h.f
  {
    hide RunBody, RunOrder, RunWaves, RunNode, RunLoop, RunMatch, RunTail, NodeStep, RoundStep, LaunchTo, FetchOne,
      Prepare, EvalPath, Eval, ApplyPipeline, Vars, KindVars, BodyVars, KeyOf, Groups, HoistedLoop, LoopNames,
      LoopFit, LoopAvoids, BatchesPlaced, Hoistable;
  }

  lemma OneMoreName(h: Hoist, k: nat, env: Env, batch: Option<Value>)
    requires hide *; k < |h.fe.body.nodes| && Hoistable(h.fe, h.fe.body.nodes[k]) && batch.Some?
    requires forall j: nat | j < k ::
             SuppliedBy(h.p.world, h.fe, j, h.s, h.a, h.coll, Lookup(env, LoopBatchName(h.s + PlanCount(h.fe, j))))
    requires SuppliedBy(h.p.world, h.fe, k, h.s, h.a, h.coll, batch)
    ensures var e := Insert(env, LoopBatchName(h.s + PlanCount(h.fe, k)), batch.value);
            forall j: nat | j < k + 1 ::
                SuppliedBy(h.p.world, h.fe, j, h.s, h.a, h.coll, Lookup(e, LoopBatchName(h.s + PlanCount(h.fe, j))))
  {
    hide SuppliedBy, Hoistable, LoopBatchName, PlanCount;
    var e := Insert(env, LoopBatchName(h.s + PlanCount(h.fe, k)), batch.value);
    forall j: nat | j < k + 1
      ensures SuppliedBy(h.p.world, h.fe, j, h.s, h.a, h.coll, Lookup(e, LoopBatchName(h.s + PlanCount(h.fe, j))))
    {
      if j < k {
        OtherName(h.fe, h.s, j, k);
        if !Hoistable(h.fe, h.fe.body.nodes[j]) {
          NothingToSupply(h.p.world, h.fe, j, h.s, h.a, h.coll, Lookup(e, LoopBatchName(h.s + PlanCount(h.fe, j))));
        }
      }
    }
  }

  lemma OtherName(fe: ForEachIr, s: nat, j: nat, k: nat)
    requires hide *; j < k < |fe.body.nodes| && Hoistable(fe, fe.body.nodes[k])
    ensures Hoistable(fe, fe.body.nodes[j])
            ==> LoopBatchName(s + PlanCount(fe, j)) != LoopBatchName(s + PlanCount(fe, k))
  {
    hide *;
    PlanCountGrows(fe, j, k);
    if LoopBatchName(s + PlanCount(fe, j)) == LoopBatchName(s + PlanCount(fe, k)) {
      LoopNamesDistinct(s + PlanCount(fe, j), s + PlanCount(fe, k));
    }
  }

  /** The step of the rewritten run at a batch. */
  lemma BatchSide(h: Hoist, k: nat, t: Run)
    requires hide *; h.Valid() && k < |h.fe.body.nodes| && Hoistable(h.fe, h.fe.body.nodes[k])
    requires h.at + PlanCount(h.fe, k) < |h.d.nodes| && t == h.Then(h.at + PlanCount(h.fe, k)) && t.ctl.Next?
             && SameBut(h.a, t.env, h.f)
    ensures var n := h.fe.body.nodes[k];
            var one := FetchOne(h.p.world, LoopBatchFetch(h.fe, n), t.env, h.hist + Mutations(t.evs));
            && one.val.Some?
            && h.Then(h.at + PlanCount(h.fe, k) + 1)
               == Run(Insert(t.env, LoopBatchName(h.s + PlanCount(h.fe, k)), one.val.value), t.evs + FetchEvents(one),
                   t.ctl)
            && SuppliedBy(h.p.world, h.fe, k, h.s, h.a, h.coll, one.val)
            && Observe(FetchEvents(one)) == [] && Sends(FetchEvents(one)) == if h.coll == [] then 0 else 1
  {
    hide RunBody, RunWaves, RunNode, RunLoop, RunMatch, RunTail, NodeStep, RoundStep, LaunchTo, Prepare, EvalPath,
      ApplyPipeline, Vars, KindVars, BodyVars, KeyOf, Groups, HoistedLoop, RunOrder, FetchOne, Observe, Sends, Eval,
      Hoistable, HoistPlain, LoopServed, Supplies, QuietFetch, SameBut, Hoist.Valid;
    var n := h.fe.body.nodes[k];
    var g := LoopBatchFetch(h.fe, n);
    BatchIsDue(h, k);
    BatchKnown(h, k);
    MappedFetch(h.p.world, h.fe, n, h.a, h.coll, h.hist + Mutations(t.evs));
    FetchSame(h.p.world, g, h.a, t.env, h.f, h.hist + Mutations(t.evs));
    QuietGetUnobserved(h.p.world, g, t.env, h.hist + Mutations(t.evs));
    var one := FetchOne(h.p.world, g, t.env, h.hist + Mutations(t.evs));
    LaunchSends(Launch(one.before, if one.sent.Some? then [one.sent.value] else [], one.after, map[]));
    OrderStep(h.p, h.fuel, h.d, h.at + PlanCount(h.fe, k), h.ed, h.hist);
  }

  /** What is promised of the batch for node `k` of the loop body. */
  ghost predicate BatchDue(h: Hoist, k: nat) {
    hide *;
    && k < |h.fe.body.nodes| && Hoistable(h.fe, h.fe.body.nodes[k])
    && LoopServed(h.p.world, h.fe, h.fe.body.nodes[k], h.a, h.coll)
    && Eval(h.fe.iter, h.a, None).val.Some? && h.coll == Eval(h.fe.iter, h.a, None).val.value.Items()
    && DoesWork(h.d.nodes, h.at + PlanCount(h.fe, k),
       LoopBatchNode(h.fe, h.fe.body.nodes[k], h.s + PlanCount(h.fe, k), 0))
  }

  lemma BatchIsDue(h: Hoist, k: nat)
    requires hide *; h.Valid() && k < |h.fe.body.nodes| && Hoistable(h.fe, h.fe.body.nodes[k])
    ensures BatchDue(h, k)
  {
    hide RunBody, RunWaves, RunNode, RunLoop, RunMatch, RunTail, NodeStep, RoundStep, LaunchTo, FetchOne, Prepare,
      EvalPath, ApplyPipeline, Vars, KindVars, BodyVars, KeyOf, Groups, HoistedLoop, RunOrder, Hoistable,
      LoopServed, LoopFit, LoopAvoids, LoopNames, SameBut, Eval;
  }

  /** The mapped batch prints nothing and reads no batch name. */
  lemma BatchKnown(h: Hoist, k: nat)
    requires hide *; h.Valid() && k < |h.fe.body.nodes| && Hoistable(h.fe, h.fe.body.nodes[k])
    ensures HoistPlain(h.fe, h.fe.body.nodes[k])
    ensures QuietFetch(LoopBatchFetch(h.fe, h.fe.body.nodes[k]))
            && FetchVars(LoopBatchFetch(h.fe, h.fe.body.nodes[k]), true) !! h.f
  {
    hide *;
    BatchCovered(h, k);
    MappedClean(h.fe, h.fe.body.nodes[k], h.f);
  }

  /** A hoisted fetch is plain, and neither it nor the collection reads a batch name. */
  lemma BatchCovered(h: Hoist, k: nat)
    requires hide RunBody, RunOrder, RunWaves, RunNode, RoundStep, FetchOne, Eval, Vars, KeyOf, Groups;
             h.Valid() && k < |h.fe.body.nodes| && Hoistable(h.fe, h.fe.body.nodes[k])
    ensures var n := h.fe.body.nodes[k];
            && HoistPlain(h.fe, n) && Quiet.Quiet(h.fe.iter)
            && Vars(h.fe.iter, true) !! h.f && FetchVars(n.kind.f, true) !! h.f
  {
    hide RunBody, RunWaves, RunNode, RunLoop, RunMatch, RunTail, NodeStep, RoundStep, LaunchTo, FetchOne, Prepare,
      EvalPath, ApplyPipeline, Vars, KindVars, BodyVars, KeyOf, Groups, HoistedLoop, RunOrder, Eval, HoistPlain,
      LoopServed, SameBut, LoopNames, BatchesPlaced, FetchVars, Quiet.Quiet;
    var n := h.fe.body.nodes[k];
    assert n in h.fe.body.nodes;
    AvoidsNode(h.fe.body, k, h.f);
  }

  lemma {:induction false} BatchesRun(h: Hoist, k: nat)
    requires hide *; h.Valid() && k <= |h.fe.body.nodes|
    ensures h.at + PlanCount(h.fe, k) <= |h.d.nodes| && Batched(h, k, h.Then(h.at + PlanCount(h.fe, k)))
  {
    hide RunBody, RunWaves, RunNode, RunLoop, RunMatch, RunTail, NodeStep, RoundStep, LaunchTo, FetchOne, Prepare,
      EvalPath, Eval, ApplyPipeline, Vars, KindVars, BodyVars, KeyOf, Groups, HoistedLoop, RunOrder, Hoist.Valid,
      Observe, Sends, Hoistable, SuppliedBy, LoopBatchName;
    PlacesFit(h, k);
    if k == 0 {
      NoBatchYet(h);
    } else {
      BatchesRun(h, k - 1);
      PlacesFit(h, k - 1);
      if Hoistable(h.fe, h.fe.body.nodes[k - 1]) {
        OneBatch(h, k - 1, h.Then(h.at + PlanCount(h.fe, k - 1)));
      } else {
        NothingToSupply(h.p.world, h.fe, k - 1, h.s, h.a, h.coll,
                        Lookup(h.Then(h.at + PlanCount(h.fe, k)).env, LoopBatchName(h.s + PlanCount(h.fe, k - 1))));
      }
    }
  }

  lemma PlacesFit(h: Hoist, k: nat)
    requires hide *; h.Valid() && k <= |h.fe.body.nodes|
    ensures h.at <= |h.d.nodes| && h.at + PlanCount(h.fe, k) <= |h.d.nodes|
    ensures k < |h.fe.body.nodes| && Hoistable(h.fe, h.fe.body.nodes[k]) ==> h.at + PlanCount(h.fe, k) < |h.d.nodes|
  {
    hide RunBody, RunOrder, RunWaves, RunNode, RunLoop, RunMatch, RunTail, NodeStep, RoundStep, LaunchTo, FetchOne,
      Prepare, EvalPath, Eval, ApplyPipeline, Vars, KindVars, BodyVars, KeyOf, Groups, HoistedLoop;
    PlanCountGrows(h.fe, k, |h.fe.body.nodes|);
  }

  lemma NoBatchYet(h: Hoist)
    requires hide RunBody, RunOrder, RunWaves, RunNode, RoundStep, FetchOne, Eval, Vars, KeyOf, Groups; h.Valid()
    ensures Batched(h, 0, h.Then(h.at))
  {
    hide RunBody, RunOrder, RunWaves, RunNode, RunLoop, RunMatch, RunTail, NodeStep, RoundStep, LaunchTo, FetchOne,
      Prepare, EvalPath, Eval, ApplyPipeline, Vars, KindVars, BodyVars, KeyOf, Groups, HoistedLoop;
  }
}
