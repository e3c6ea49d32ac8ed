/** The executor as it runs: an environment that is overwritten wave by wave, iteration by iteration and
    attempt by attempt, and a trace that grows.  Each method leaves what the interpreter says. */
module Executor {
  import opened Wrappers
  import opened Ast
  import opened Values
  import opened Evaluator
  import opened Ir
  import opened Exec
  import opened Traces

  /** The variables of a flow being run; nested bodies share them. */
  class Scope {
    var env: Env

    constructor (env: Env)
      ensures this.env == env
    {
      this.env := env;
    }
  }

  class Executor {
    const p: Prog
    var trace: seq<Event>

    constructor (p: Prog)
      ensures this.p == p && trace == []
    {
      this.p := p;
      trace := [];
    }

    /** The scope and the trace are as after a run `r` that began with `before` on the trace. */
    ghost predicate Left(r: Run, scope: Scope, before: seq<Event>)
      reads this, scope
    {
      scope.env == r.env && trace == before + r.evs
    }

    ghost function Seen(): seq<Request>
      reads this
    {
      Mutations(trace)
    }

    method Say(lines: seq<string>)
      modifies this
      ensures trace == old(trace) + Prints(lines)
    {
      trace := trace + Prints(lines);
    }

    /** The waves in order; a wave's fetches together, then its other nodes one by one. */
    method RunBody(fuel: nat, b: Body, scope: Scope) returns (ctl: Ctl)
      modifies this, scope
      ensures var r := Exec.RunBody(p, Waves, fuel, b, old(scope.env), old(Seen()));
              Left(r, scope, old(trace)) && ctl == r.ctl
      decreases fuel, b, 9, 0
    {
      hide Mutations, RunTail, RoundStep;
      ghost var env, hist, before := scope.env, Seen(), trace;
      ctl := Next(None);
      assert before + [] == before;
      var k := 0;
      while k < |b.waves|
        invariant k <= |b.waves|
        invariant Left(RunWaves(p, fuel, b, k, env, hist), scope, before)
                  && ctl == RunWaves(p, fuel, b, k, env, hist).ctl
      {
        ctl := RunWave(fuel, b, b.waves[k], scope, ctl, env, hist, before, k);
        k := k + 1;
      }
    }

    /** One wave, unless the run has ended. */
    method RunWave(fuel: nat, b: Body, wave: seq<NodeId>, scope: Scope, ctl: Ctl,
                   ghost env: Env, ghost hist: seq<Request>, ghost before: seq<Event>, ghost k: nat)
      returns (next: Ctl)
      requires k < |b.waves| && wave == b.waves[k]
      requires Left(RunWaves(p, fuel, b, k, env, hist), scope, before) && ctl == RunWaves(p, fuel, b, k, env, hist).ctl
      requires hist == Mutations(before)
      modifies this, scope
      ensures Left(RunWaves(p, fuel, b, k + 1, env, hist), scope, before)
              && next == RunWaves(p, fuel, b, k + 1, env, hist).ctl
      decreases fuel, b, 8, 0
    {
      hide Mutations, NodeStep, RoundStep, RunTail;
      ghost var r := RunWaves(p, fuel, b, k, env, hist);
      var ids := FetchIds(b, wave);
      var arrive := p.world.arrival(ids, scope.env);
      next := RunRound(b, ids, arrive, scope, ctl, r, hist, before);
      next := RunRest(fuel, b, wave, scope, next, RoundStep(p, b, ids, arrive, r, hist), hist, before);
    }

    /** The nodes of a wave that are not fetches, after its round left `s`. */
    method RunRest(fuel: nat, b: Body, wave: seq<NodeId>, scope: Scope, ctl: Ctl,
                   ghost s: Run, ghost hist: seq<Request>, ghost before: seq<Event>)
      returns (next: Ctl)
      requires Left(s, scope, before) && ctl == s.ctl && hist == Mutations(before)
      modifies this, scope
      ensures var r := RunTail(p, fuel, b, wave, |wave|, s, hist);
              Left(r, scope, before) && next == r.ctl
      decreases fuel, b, 7, 0
    {
      hide NodeStep, Mutations;
      next := ctl;
      var j := 0;
      while j < |wave|
        invariant j <= |wave|
        invariant Left(RunTail(p, fuel, b, wave, j, s, hist), scope, before)
        invariant next == RunTail(p, fuel, b, wave, j, s, hist).ctl
      {
        if !IsFetch(b, wave[j]) {
          next := Step(fuel, b, wave[j], scope, next, RunTail(p, fuel, b, wave, j, s, hist), hist, before);
        }
        j := j + 1;
      }
    }

    /** One node of a wave, unless the run has ended. */
    method Step(fuel: nat, b: Body, id: NodeId, scope: Scope, ctl: Ctl,
                ghost r: Run, ghost hist: seq<Request>, ghost before: seq<Event>)
      returns (next: Ctl)
      requires Left(r, scope, before) && ctl == r.ctl && hist == Mutations(before)
      modifies this, scope
      ensures var s := NodeStep(p, Waves, fuel, b, id, r, hist);
              Left(s, scope, before) && next == s.ctl
      decreases fuel, b, 6, 0
    {
      hide Exec.RunNode, Mutations;
      next := ctl;
      if ctl.Next? && id < |b.nodes| {
        MutationsAppend(before, r.evs);
        next := RunNode(fuel, b, b.nodes[id], scope);
        JoinTrace(before, r.evs, trace);
        if next.Next? { next := Next(JoinLast(ctl.last, next.last)); }
      }
    }

    /** Launch the fetches of a wave from one snapshot, then await them in program order. */
    method RunRound(b: Body, ids: seq<NodeId>, arrive: seq<NodeId>, scope: Scope, ctl: Ctl,
                    ghost r: Run, ghost hist: seq<Request>, ghost before: seq<Event>)
      returns (next: Ctl)
      requires Left(r, scope, before) && ctl == r.ctl && hist == Mutations(before)
      modifies this, scope
      ensures Left(RoundStep(p, b, ids, arrive, r, hist), scope, before)
              && next == RoundStep(p, b, ids, arrive, r, hist).ctl
    {
      hide Mutations, LaunchTo, LaunchEvents, BindTo;
      next := ctl;
      if !ctl.Next? { return; }
      MutationsAppend(before, r.evs);
      var l := Launched(b, arrive, scope.env);
      trace := trace + LaunchEvents(l);
      assert before + r.evs + LaunchEvents(l) == before + (r.evs + LaunchEvents(l));
      ghost var s := r.(evs := r.evs + LaunchEvents(l));
      var k := 0;
      while k < |ids|
        invariant k <= |ids|
        invariant Left(Collect(b, ids, k, l.vals, s), scope, before) && next == Collect(b, ids, k, l.vals, s).ctl
      {
        var id := ids[k];
        if next.Next? && IsFetch(b, id) {
          if id !in l.vals || l.vals[id].None? {
            next := Fail(!b.nodes[id].effect);
          } else {
            scope.env := BindTo(scope.env, b.nodes[id].binding, l.vals[id].value);
          }
        }
        k := k + 1;
      }
    }

    /** The requests of a wave, each prepared from the snapshot, in the order in which they arrive. */
    method Launched(b: Body, arrive: seq<NodeId>, snapshot: Env) returns (l: Launch)
      ensures l == LaunchTo(p.world, b, arrive, |arrive|, snapshot, Seen())
    {
      hide FetchOne;
      l := Launch([], [], [], map[]);
      var k := 0;
      while k < |arrive|
        invariant k <= |arrive| && l == LaunchTo(p.world, b, arrive, k, snapshot, Seen())
      {
        var id := arrive[k];
        if IsFetch(b, id) {
          var r := FetchOne(p.world, b.nodes[id].kind.f, snapshot, Mutations(trace) + MutationsOf(l.sent));
          l := Launch(l.before + r.before, l.sent + (if r.sent.Some? then [r.sent.value] else []), l.after + r.after,
                      l.vals[id := r.val]);
        }
        k := k + 1;
      }
    }

    /** A node that is not a fetch. */
    method RunNode(fuel: nat, b: Body, n: Node, scope: Scope) returns (ctl: Ctl)
      modifies this, scope
      ensures var r := Exec.RunNode(p, Waves, fuel, b, n, old(scope.env), old(Seen()));
              Left(r, scope, old(trace)) && ctl == r.ctl
      decreases fuel, n, 5, 0
    {
      hide Exec.RunMatch, Exec.RunExpr, Exec.RunLoop, Mutations, Eval;
      match n.kind
      case MatchN(m) =>
        ctl := RunMatch(fuel, m, b, scope, MAX_RETRIES);
        BindLastValue(n, scope, ctl);
      case ExprN(e) =>
        ctl := RunExpr(fuel, n, e, scope);
        BindLastValue(n, scope, ctl);
      case ForEachN(fe) =>
        var v := Eval(fe.iter, scope.env, None);
        ghost var before := trace;
        Say(v.out);
        if v.val.None? { return Fail(false); }
        SayingMutatesNothing(before, v.out);
        ctl := RunLoop(fuel, fe, v.val.value.Items(), scope);
        JoinTrace(before, Prints(v.out), trace);
      case _ => ctl := RunSimple(b, fuel, n, scope);
    }

    method BindLastValue(n: Node, scope: Scope, ctl: Ctl)
      modifies scope
      ensures scope.env
           == if ctl.Next? && ctl.last.Some? then BindTo(old(scope.env), n.binding, ctl.last.value)
              else old(scope.env)
    {
      if ctl.Next? && ctl.last.Some? { scope.env := BindTo(scope.env, n.binding, ctl.last.value); }
    }

    /** A node that evaluates one expression. */
    method RunSimple(b: Body, fuel: nat, n: Node, scope: Scope) returns (ctl: Ctl)
      requires !n.kind.MatchN? && !n.kind.ExprN? && !n.kind.ForEachN?
      modifies this, scope
      ensures var r := Exec.RunNode(p, Waves, fuel, b, n, old(scope.env), old(Seen()));
              Left(r, scope, old(trace)) && ctl == r.ctl
    {
      hide Mutations, Exec.RunMatch, Exec.RunExpr, Exec.RunLoop, Eval;
      ghost var before := trace;
      match n.kind
      case LetN(e) =>
        var v := Eval(e, scope.env, None);
        Say(v.out);
        if v.val.None? { return Fail(true); }
        scope.env := BindTo(scope.env, n.binding, v.val.value);
        ctl := Next(None);
      case ScatterN(batch, keyField, want) =>
        var v := Eval(want, scope.env, None);
        Say(v.out);
        if v.val.None? { return Fail(true); }
        scope.env := BindTo(scope.env, n.binding, Pick(Lookup(scope.env, batch), keyField, v.val.value));
        ctl := Next(None);
      case LogN(e) =>
        var v := Eval(e, scope.env, None);
        Say(v.out);
        if v.val.None? { return Fail(false); }
        trace := trace + [Print(v.val.value.Display())];
        assert before + Prints(v.out) + [Print(v.val.value.Display())]
            == before + (Prints(v.out) + [Print(v.val.value.Display())]);
        ctl := Next(None);
      case AssertN(e) =>
        var v := Eval(e, scope.env, None);
        Say(v.out);
        ctl := if v.val.Some? && v.val.value.Truthy() then Next(None) else Fail(false);
      case ReturnN(e) =>
        var v := if e.None? then Done(Value.Null) else Eval(e.value, scope.env, None);
        Say(v.out);
        ctl := if v.val.Some? then Return(v.val.value) else Fail(false);
      case FetchN(_) =>
        assert before + [] == before;
        ctl := Next(None);
    }

    /** A call to a declared flow runs that flow in a scope of its own; anything else is evaluated. */
    method RunExpr(fuel: nat, n: Node, e: Expr, scope: Scope) returns (ctl: Ctl)
      modifies this, scope
      ensures var r := Exec.RunExpr(p, Waves, fuel, n, e, old(scope.env), old(Seen()));
              Left(r, scope, old(trace)) && ctl == r.ctl
      decreases fuel, n, 4, 0
    {
      hide Mutations, Exec.RunBody, Eval;
      ghost var before := trace;
      var name := CallName(e);
      if name.Some? && FindFlow(p.flows, name.value).Some? {
        var args := ArgValues(e.args, scope.env);
        Say(args.out);
        if args.val.None? || fuel == 0 { return Fail(false); }
        SayingMutatesNothing(before, args.out);
        var flow := FindFlow(p.flows, name.value).value;
        var inner := new Scope(Env(ParamEnv(flow.params, args.val.value), scope.env.os));
        var c := RunBody(fuel - 1, flow.body, inner);
        JoinTrace(before, Prints(args.out), trace);
        ctl := BodyValue(c);
      } else {
        var v := Eval(e, scope.env, None);
        Say(v.out);
        ctl := if v.val.Some? then Next(v.val) else Fail(false);
      }
    }

    /** One iteration per element, in the scope of the loop. */
    method RunLoop(fuel: nat, fe: ForEachIr, items: seq<Value>, scope: Scope) returns (ctl: Ctl)
      modifies this, scope
      ensures var r := Exec.RunLoop(p, Waves, fuel, fe, items, |items|, old(scope.env), old(Seen()));
              Left(r, scope, old(trace)) && ctl == r.ctl
      decreases fuel, fe, 3, 0
    {
      hide Mutations, Exec.RunBody;
      ghost var env, hist, before := scope.env, Seen(), trace;
      ctl := Next(None);
      assert before + [] == before;
      var k := 0;
      while k < |items|
        invariant k <= |items|
        invariant Left(Exec.RunLoop(p, Waves, fuel, fe, items, k, env, hist), scope, before)
        invariant ctl == Exec.RunLoop(p, Waves, fuel, fe, items, k, env, hist).ctl
      {
        if ctl.Next? {
          ghost var r := Exec.RunLoop(p, Waves, fuel, fe, items, k, env, hist);
          MutationsAppend(before, r.evs);
          scope.env := Insert(scope.env, fe.loopVar, items[k]);
          var c := RunBody(fuel, fe.body, scope);
          JoinTrace(before, r.evs, trace);
          ctl := LoopCtl(fe, c);
        }
        k := k + 1;
      }
    }

    /** The first arm that matches; a retry arm runs the fetch of the scrutinee again and starts over. */
    method RunMatch(fuel: nat, m: MatchIr, b: Body, scope: Scope, attempts: nat) returns (ctl: Ctl)
      modifies this, scope
      ensures var r := Exec.RunMatch(p, Waves, fuel, m, b, old(scope.env), old(Seen()), attempts);
              Left(r, scope, old(trace)) && ctl == r.ctl
      decreases fuel, m, attempts, 1
    {
      hide Mutations, Exec.RunBody, Refetch, Eval;
      ghost var before := trace;
      var v := Eval(m.scrutinee, scope.env, None);
      Say(v.out);
      if v.val.None? { return Fail(false); }
      if attempts == 0 { return Next(v.val); }
      FirstArmIn(m.arms, v.val.value);
      var chosen := FirstArm(m.arms, v.val.value);
      if chosen.None? { return Fail(false); }
      var arm := chosen.value;
      SayingMutatesNothing(before, v.out);
      scope.env := InsertAll(scope.env, MatchPattern(arm.pattern, v.val.value).value);
      match arm.body
      case ValueArm(e) =>
        var r := Eval(e, scope.env, None);
        Say(r.out);
        JoinTrace(before, Prints(v.out), trace);
        ctl := if r.val.Some? then Next(r.val) else Fail(false);
      case BodyArm(body) =>
        assert arm.body < arm;
        var c := RunBody(fuel, body, scope);
        JoinTrace(before, Prints(v.out), trace);
        ctl := BodyValue(c);
      case RetryArm(effects) => ctl := RunRetry(fuel, m, b, effects, scope, attempts, v.out, before);
    }

    /** Run the effects of a retry arm, then the fetch again, then the match again. */
    method RunRetry(fuel: nat, m: MatchIr, b: Body, effects: seq<Effect>, scope: Scope, attempts: nat,
                    ghost said: seq<string>, ghost before: seq<Event>)
      returns (ctl: Ctl)
      requires attempts > 0 && trace == before + Prints(said)
      modifies this, scope
      ensures var inner, hist := old(scope.env), old(Seen());
              var r := Retried(p, fuel, m, b, inner, hist, RunEffects(effects, inner), Prints(said), attempts);
              Left(r, scope, before) && ctl == r.ctl
      decreases fuel, m, attempts, 0
    {
      hide Eval, RunEffects, Exec.RunMatch, Refetch, Mutations;
      var waited := RunEffects(effects, scope.env);
      ghost var start := trace;
      Say(waited.out);
      JoinTrace(before, Prints(said), trace);
      if waited.val.None? { return Fail(false); }
      SayingMutatesNothing(start, waited.out);
      ctl := Again(fuel, m, b, scope, attempts, Prints(said) + Prints(waited.out), before);
    }

    /** The fetch of the scrutinee, and the match once more. */
    method Again(fuel: nat, m: MatchIr, b: Body, scope: Scope, attempts: nat, ghost out: seq<Event>,
        ghost before: seq<Event>)
      returns (ctl: Ctl)
      requires attempts > 0 && trace == before + out
      modifies this, scope
      ensures var inner, hist := old(scope.env), old(Seen());
              var r := Refetched(p, fuel, m, b, Refetch(p.world, m, b, inner, hist), hist, out, attempts);
              Left(r, scope, before) && ctl == r.ctl
      decreases fuel, m, attempts - 1, 2
    {
      hide Eval, Exec.RunMatch, Refetch, Mutations;
      ghost var mid := trace;
      var first := Refetch(p.world, m, b, scope.env, Mutations(trace));
      trace := trace + first.evs;
      scope.env := first.env;
      JoinTrace(before, out, trace);
      if !first.ctl.Next? { return first.ctl; }
      MutationsAppend(mid, first.evs);
      ctl := RunMatch(fuel, m, b, scope, attempts - 1);
      JoinTrace(before, out + first.evs, trace);
    }
  }

  /** What a retry arm comes to once its effects gave `waited`. */
  ghost function Retried(p: Prog, fuel: nat, m: MatchIr, b: Body, inner: Env, hist: seq<Request>, waited: Eff<bool>,
                         out: seq<Event>, attempts: nat): Run
    requires attempts > 0
  {
    hide *;
    if waited.val.None? then Run(inner, out + Prints(waited.out), Fail(false))
    else Refetched(p, fuel, m, b, Refetch(p.world, m, b, inner, hist), hist, out + Prints(waited.out), attempts)
  }

  /** What it comes to once the fetch came back as `first`. */
  ghost function Refetched(p: Prog, fuel: nat, m: MatchIr, b: Body, first: Run, hist: seq<Request>, out: seq<Event>,
                           attempts: nat): Run
    requires attempts > 0
  {
    hide *;
    if !first.ctl.Next? then first.(evs := out + first.evs)
    else
      var again := Exec.RunMatch(p, Waves, fuel, m, b, first.env, hist + Mutations(first.evs), attempts - 1);
      again.(evs := out + first.evs + again.evs)
  }

  /** Printing mutates nothing. */
  lemma SayingMutatesNothing(before: seq<Event>, lines: seq<string>)
    ensures Mutations(before + Prints(lines)) == Mutations(before)
  {
    MutationsAppend(before, Prints(lines));
    NoMutation(lines);
  }

  lemma {:induction false} NoMutation(lines: seq<string>)
    ensures Mutations(Prints(lines)) == []
  {
    if lines != [] {
      assert Prints(lines)[..|lines| - 1] == Prints(lines[..|lines| - 1]);
      NoMutation(lines[..|lines| - 1]);
    }
  }

  /** What was added after `more` was added after `before`. */
  lemma JoinTrace(before: seq<Event>, more: seq<Event>, trace: seq<Event>)
    ensures forall evs | trace == before + more + evs :: trace == before + (more + evs)
  {
    forall evs | trace == before + more + evs ensures trace == before + (more + evs) {
      assert before + more + evs == before + (more + evs);
    }
  }
}
