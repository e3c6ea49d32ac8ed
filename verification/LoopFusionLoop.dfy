/** A whole hoisted loop against the loop before, and the batches that stand before it. */
module LoopFusionLoop {
  import opened Wrappers
  import opened Ast
  import opened Values
  import opened Evaluator
  import opened Frames
  import opened Ir
  import opened Exec
  import opened FetchFrames
  import opened Traces
  import opened FreshNames
  import opened Fusion
  import opened LoopFusion
  import opened LoopFusionBody

  /** A loop over `coll`, begun in `a` on one side and, with the batches bound, in `e` on the other. */
  datatype Loop = Loop(p: Prog, fuel: nat, fe: ForEachIr, s: nat, coll: seq<Value>, a: Env, e: Env, hist: seq<Request>,
      f: set<string>)
  {
    ghost predicate Valid() {
      && LoopFit(fe) && LoopAvoids(fe, f) && LoopNames(fe, s) <= f
      && SameBut(a, e, f) && Supplied(p.world, fe, s, a, coll, e)
    }

    ghost function At(k: nat): Run
      requires k <= |coll|
    {
      hide *;
      RunLoop(p, InOrder, fuel, fe, coll, k, a, hist)
    }

    ghost function Then(k: nat): Run
      requires k <= |coll|
    {
      hide *;
      RunLoop(p, InOrder, fuel, HoistedLoop(fe, s), coll, k, e, hist)
    }

    /** The next iteration. */
    ghost function Turn(k: nat): Turn
      requires k < |coll|
    {
      hide *;
      LoopFusionBody.Turn.Turn(p, fuel, fe, s, a, coll, coll[k], Insert(At(k).env, fe.loopVar, coll[k]),
                          Insert(Then(k).env, fe.loopVar, coll[k]), hist + Mutations(At(k).evs), f)
    }
  }

  lemma TurnIsValid(l: Loop, k: nat)
    requires hide *;
             l.Valid() && k < |l.coll| && SameBut(l.At(k).env, l.Then(k).env, l.f) && NamesKept(l.e, l.Then(k).env, l.f)
    ensures l.Turn(k).Valid()
  {
    hide RunBody, RunOrder, RunWaves, RunNode, RunMatch, RunTail, NodeStep, RoundStep, LaunchTo, FetchOne, Prepare,
      EvalPath, Eval, ApplyPipeline, Vars, KindVars, BodyVars, KeyOf, Groups, RunLoop, HoistedLoop, BodyWrites;
    var t := l.Turn(k);
    LoopWithin(l.p, InOrder, l.fuel, l.fe, l.coll, k, l.a, l.hist);
    InsertSame(l.At(k).env, l.Then(k).env, l.f, l.fe.loopVar, l.coll[k]);
    StillSupplied(l, l.Then(k).env, l.coll[k]);
    forall i: nat | i < |l.fe.body.nodes| && Hoistable(l.fe, l.fe.body.nodes[i])
      ensures KeySeen(l.fe, l.fe.body.nodes[i], l.a, l.coll[k], t.a)
    {
      assert HoistPlain(l.fe, l.fe.body.nodes[i]);
      KeySeenLater(l.fe, l.fe.body.nodes[i], l.a, l.At(k).env, l.coll[k]);
    }
  }

  lemma KeySeenLater(fe: ForEachIr, n: Node, a: Env, now: Env, item: Value)
    requires hide *; Hoistable(fe, n) && HoistPlain(fe, n) && Within(a, now, {fe.loopVar} + BodyWrites(fe.body))
    ensures KeySeen(fe, n, a, item, Insert(now, fe.loopVar, item))
  {
    hide Vars, KeyOf, Groups, HoistedLoop, BodyWrites;
    var e := Insert(now, fe.loopVar, item);
    forall x | x in Vars(KeyExpr(n), true) ensures Lookup(Insert(a, fe.loopVar, item), x) == Lookup(e, x) {
      if x != fe.loopVar {
        assert x in Vars(KeyExpr(n), true) - {fe.loopVar};
        assert x !in {fe.loopVar} + BodyWrites(fe.body);
        assert Lookup(a, x) == Lookup(now, x);
      }
    }
    forall x | x in PathVars(Prefix(n.kind.f.path), true) ensures Lookup(a, x) == Lookup(e, x) {
    }
  }

  lemma StillSupplied(l: Loop, now: Env, item: Value)
    requires l.Valid() && NamesKept(l.e, now, l.f)
    ensures Supplied(l.p.world, l.fe, l.s, l.a, l.coll, Insert(now, l.fe.loopVar, item))
  {
    hide RunBody, RunOrder, RunWaves, RunNode, RunLoop, RunMatch, RunTail, NodeStep, RoundStep, LaunchTo, FetchOne,
      Prepare, EvalPath, Eval, ApplyPipeline, Vars, KindVars, BodyVars, KeyOf, Groups, HoistedLoop, SuppliedBy,
      LoopFit, Hoistable, SameBut;
    var e := Insert(now, l.fe.loopVar, item);
    forall i: nat | i < |l.fe.body.nodes|
      ensures SuppliedBy(l.p.world, l.fe, i, l.s, l.a, l.coll, Lookup(e, LoopBatchName(l.s + PlanCount(l.fe, i))))
    {
      assert SuppliedBy(l.p.world, l.fe, i, l.s, l.a, l.coll, Lookup(l.e, LoopBatchName(l.s + PlanCount(l.fe, i))));
      if Hoistable(l.fe, l.fe.body.nodes[i]) {
        NamedInLoop(l.fe, l.s, i);
      } else {
        NothingToSupply(l.p.world, l.fe, i, l.s, l.a, l.coll, Lookup(e, LoopBatchName(l.s + PlanCount(l.fe, i))));
      }
    }
  }

  lemma NothingToSupply(w: World, fe: ForEachIr, i: nat, s: nat, env: Env, coll: seq<Value>, batch: Option<Value>)
    requires hide *; i < |fe.body.nodes| && !Hoistable(fe, fe.body.nodes[i])
    ensures SuppliedBy(w, fe, i, s, env, coll, batch)
  {
    hide EvalPath, Eval, Vars, KeyOf, Groups, HoistedLoop;
  }

  lemma LoopStep(p: Prog, fuel: nat, fe: ForEachIr, coll: seq<Value>, k: nat, env: Env, hist: seq<Request>)
    requires hide *; k < |coll|
    ensures var r, u := RunLoop(p, InOrder, fuel, fe, coll, k, env, hist),
            RunLoop(p, InOrder, fuel, fe, coll, k + 1, env, hist);
            if !r.ctl.Next? then u == r
            else
              var m := RunOrder(p, fuel, fe.body, |fe.body.nodes|, Insert(r.env, fe.loopVar, coll[k]),
                  hist + Mutations(r.evs));
              u == Run(m.env, r.evs + m.evs, LoopCtl(fe, m.ctl))
  {
    hide FetchOne, Prepare, Eval, ApplyPipeline, Vars, KeyOf, RunOrder;
    var r := RunLoop(p, InOrder, fuel, fe, coll, k, env, hist);
    if r.ctl.Next? {
      assert RunBody(p, InOrder, fuel, fe.body, Insert(r.env, fe.loopVar, coll[k]), hist + Mutations(r.evs))
          == RunOrder(p, fuel, fe.body, |fe.body.nodes|, Insert(r.env, fe.loopVar, coll[k]), hist + Mutations(r.evs));
    }
  }

  lemma BothSeen(r: Run, u: Run, es: seq<Event>, fs: seq<Event>, saved: nat, more: nat)
    requires Observe(u.evs) == Observe(r.evs) && Sends(u.evs) + saved == Sends(r.evs)
    requires Observe(fs) == Observe(es) && Sends(fs) + more == Sends(es)
    ensures Observe(u.evs + fs) == Observe(r.evs + es) && Sends(u.evs + fs) + (saved + more) == Sends(r.evs + es)
  {
    ObserveAppend(r.evs, es); ObserveAppend(u.evs, fs);
    SendsAppend(r.evs, es); SendsAppend(u.evs, fs);
  }

  /** The first `k` iterations all run to their end. */
  ghost predicate Completes(l: Loop, k: nat)
    requires k <= |l.coll|
  {
    hide *;
    forall j: nat | j < k :: TurnCompletes(l, j)
  }

  ghost predicate TurnCompletes(l: Loop, j: nat)
    requires j < |l.coll|
  {
    hide RunBody, RunOrder, RunWaves, RunNode, RoundStep, FetchOne, Eval, Vars, KeyOf, Groups;
    l.At(j).ctl.Next? && l.Turn(j).At(|l.fe.body.nodes|).ctl.Next?
  }

  /** Iteration by iteration, the loops stay in step; iterations that complete have saved every
      per-element request. */
  lemma {:induction false} LoopSteps(l: Loop, k: nat) returns (saved: nat)
    requires hide *; l.Valid() && k <= |l.coll| && l.At(k).ctl != Fail(true)
    ensures Step(l.At(k), l.Then(k), saved, l.f) && NamesKept(l.e, l.Then(k).env, l.f)
    ensures saved <= k * Plans(l.fe) && (Completes(l, k) ==> saved == k * Plans(l.fe))
    decreases k
  {
    hide Loop.Valid, RunLoop, Observe, Sends, HoistedLoop, SameBut, NamesKept, Plans, TurnCompletes;
    if k == 0 {
      saved := 0;
      StartLoop(l);
    } else {
      EndsStay(l, k - 1);
      saved := LoopSteps(l, k - 1);
      CompletesUpTo(l, k);
      if l.At(k - 1).ctl.Next? {
        var more := OneTurn(l, k - 1, saved);
        saved := saved + more;
      }
    }
  }

  lemma EndsStay(l: Loop, k: nat)
    requires hide *; k < |l.coll|
    ensures !l.At(k).ctl.Next? ==> l.At(k + 1) == l.At(k)
    ensures !l.Then(k).ctl.Next? ==> l.Then(k + 1) == l.Then(k)
  {
    hide RunBody, RunWaves, RunNode, RunLoop, RunMatch, RunTail, NodeStep, RoundStep, LaunchTo, FetchOne, Prepare,
      EvalPath, Eval, ApplyPipeline, Vars, KeyOf, Groups, RunOrder, HoistedLoop;
    LoopStep(l.p, l.fuel, l.fe, l.coll, k, l.a, l.hist);
    LoopStep(l.p, l.fuel, HoistedLoop(l.fe, l.s), l.coll, k, l.e, l.hist);
  }

  lemma CompletesUpTo(l: Loop, k: nat)
    requires hide *; 0 < k <= |l.coll|
    ensures Completes(l, k) <==> Completes(l, k - 1) && TurnCompletes(l, k - 1)
    ensures !l.At(k - 1).ctl.Next? ==> !TurnCompletes(l, k - 1)
    ensures k * Plans(l.fe) == (k - 1) * Plans(l.fe) + Plans(l.fe)
  {
    hide RunBody, RunWaves, RunNode, RunMatch, RunTail, NodeStep, RoundStep, LaunchTo, FetchOne, Prepare, EvalPath,
      Eval, ApplyPipeline, Vars, KeyOf, Groups, HoistedLoop, RunLoop, RunOrder, Plans;
  }

  lemma StartLoop(l: Loop)
    requires hide *; l.Valid()
    ensures Step(l.At(0), l.Then(0), 0, l.f) && NamesKept(l.e, l.Then(0).env, l.f)
  {
    hide FetchOne, Prepare, Eval, ApplyPipeline, Vars, KeyOf, Supplied, LoopFit, LoopAvoids;
  }

  lemma OneTurn(l: Loop, k: nat, saved: nat) returns (more: nat)
    requires hide *; l.Valid() && k < |l.coll| && l.At(k).ctl.Next? && l.At(k + 1).ctl != Fail(true)
    requires Step(l.At(k), l.Then(k), saved, l.f) && NamesKept(l.e, l.Then(k).env, l.f)
    ensures Step(l.At(k + 1), l.Then(k + 1), saved + more, l.f) && NamesKept(l.e, l.Then(k + 1).env, l.f)
    ensures more <= Plans(l.fe) && (TurnCompletes(l, k) ==> more == Plans(l.fe))
  {
    hide RunBody, RunWaves, RunNode, RunMatch, RunTail, NodeStep, RoundStep, LaunchTo, FetchOne, Prepare, EvalPath,
      Eval, ApplyPipeline, Vars, KindVars, BodyVars, KeyOf, Groups, RunOrder, RunLoop, Observe, Sends, Loop.Valid,
      Turn.Valid, SameBut;
    var t := l.Turn(k);
    TurnIsValid(l, k);
    StepHistory(l.At(k), l.Then(k), saved, l.f);
    LoopStep(l.p, l.fuel, l.fe, l.coll, k, l.a, l.hist);
    LoopStep(l.p, l.fuel, HoistedLoop(l.fe, l.s), l.coll, k, l.e, l.hist);
    var n := |l.fe.body.nodes|;
    TurnEnds(l, k);
    more := BodySteps(t, n);
    hide HoistedLoop;
    BothSeen(l.At(k), l.Then(k), t.At(n).evs, t.Then(n).evs, saved, more);
    KeptThrough(l, k, t.Then(n).env);
  }

  /** The loop goes on only if the iteration was completed. */
  lemma TurnEnds(l: Loop, k: nat)
    requires k < |l.coll|
    ensures HoistedLoop(l.fe, l.s).canReturn == l.fe.canReturn && HoistedLoop(l.fe, l.s).loopVar == l.fe.loopVar
    ensures |HoistedLoop(l.fe, l.s).body.nodes| == |l.fe.body.nodes|
    ensures forall c: Ctl :: LoopCtl(HoistedLoop(l.fe, l.s), c) == LoopCtl(l.fe, c)
    ensures forall c: Ctl :: (LoopCtl(l.fe, c) == Fail(true) <==> c == Fail(true))
  {
    hide Vars, KeyOf, Groups;
  }

  lemma StepHistory(r: Run, u: Run, saved: nat, f: set<string>)
    requires Step(r, u, saved, f)
    ensures Mutations(u.evs) == Mutations(r.evs)
  {
    SeenAlike(r, u, []);
  }

  lemma KeptThrough(l: Loop, k: nat, end: Env)
    requires hide *; l.Valid() && k < |l.coll| && NamesKept(l.e, l.Then(k).env, l.f)
    requires NamesKept(Insert(l.Then(k).env, l.fe.loopVar, l.coll[k]), end, l.f)
    ensures NamesKept(l.e, end, l.f)
  {
    hide RunBody, RunOrder, RunWaves, RunNode, RunMatch, RunTail, NodeStep, RoundStep, LaunchTo, FetchOne, Prepare,
      EvalPath, Eval, ApplyPipeline, Vars, KindVars, BodyVars, KeyOf, Groups, RunLoop, HoistedLoop, LoopFit, Supplied;
  }
}
