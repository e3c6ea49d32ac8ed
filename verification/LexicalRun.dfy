/** Running statements with lexical scopes: what a loop body or an arm binds is gone after it.  The run
    keeps a record of every fetch executed and of the request it prepared. */
module LexicalRun {
  import opened Wrappers
  import opened Ast
  import opened Values
  import opened Evaluator
  import opened Exec
  import opened Lowering
  import opened LoopTaint

  /** One execution of the fetch at `at`. */
  datatype Attempt = Attempt(at: Loc, req: Option<Request>)

  datatype Lex = Lex(env: Env, log: seq<Attempt>, hist: seq<Request>, ctl: Ctl)

  function Began(env: Env, hist: seq<Request>): Lex { Lex(env, [], hist, Next(None)) }

  /** Go on from `r` with `s`, which started where `r` ended. */
  function Then(r: Lex, s: Lex): Lex {
    s.(log := r.log + s.log)
  }

  function Ending(v: Option<Value>): Ctl { if v.Some? then Next(v) else Fail(false) }

  function LexStmt(w: World, s: Stmt, at: Loc, env: Env, hist: seq<Request>): Lex
    decreases s, 0
  {
    hide *;
    match s
    case FetchS(f) =>
      var one := FetchOne(w, LowerFetch(f), env, hist);
      var sent := if one.sent.Some? then Some(one.sent.value.req) else None;
      var seen := hist + (if one.sent.Some? then MutationsOf([one.sent.value]) else []);
      var log := [Attempt(at, sent)];
      if one.val.None? then Lex(env, log, seen, Fail(false))
      else Lex(if f.bind.Some? then Insert(env, f.bind.value.name, one.val.value) else env, log, seen, Next(None))
    case LetS(name, value) =>
      var v := Eval(value, env, None).val;
      Lex(if v.Some? then Insert(env, name, v.value) else env, [], hist, if v.Some? then Next(None) else Fail(true))
    case LogS(value) => Lex(env, [], hist, if Eval(value, env, None).val.Some? then Next(None) else Fail(false))
    case AssertS(value) =>
      var v := Eval(value, env, None).val;
      Lex(env, [], hist, if v.Some? && v.value.Truthy() then Next(None) else Fail(false))
    case ReturnS(result) =>
      var v := if result.None? then Some(Value.Null) else Eval(result.value, env, None).val;
      Lex(env, [], hist, if v.Some? then Return(v.value) else Fail(false))
    case UsingMockS(_) => Began(env, hist)
    case ParallelS(stmts) => LexAll(w, stmts, |stmts|, at, env, hist)
    case ForEachS(loopVar, iter, stmts) =>
      var c := Eval(iter, env, None).val;
      if c.None? then Lex(env, [], hist, Fail(false))
      else LexLoop(w, loopVar, stmts, c.value.Items(), |c.value.Items()|, at, env, hist)
    case ExprS(expr, bind) =>
      var r :=
        if expr.Match? then
          var v := Eval(expr.scrutinee, env, None).val;
          assert expr < s;
          if v.None? || ArmIndex(expr.arms, v.value, 0) == |expr.arms| then Lex(env, [], hist, Fail(false))
          else
            var i := ArmIndex(expr.arms, v.value, 0);
            LexArm(w, expr.arms[i], v.value, at + [i], env, hist)
        else Lex(env, [], hist, Ending(Eval(expr, env, None).val));
      if r.ctl.Next? && r.ctl.last.Some? && bind.Some? then
        r.(env := Insert(env, bind.value.name, r.ctl.last.value))
      else r
  }

  /** The first `k` statements. */
  function LexAll(w: World, stmts: seq<Stmt>, k: nat, at: Loc, env: Env, hist: seq<Request>): Lex
    requires k <= |stmts|
    decreases stmts, 1, k
  {
    hide *;
    if k == 0 then Began(env, hist)
    else
      var r := LexAll(w, stmts, k - 1, at, env, hist);
      if !r.ctl.Next? then r
      else
        var s := LexStmt(w, stmts[k - 1], at + [k - 1], r.env, r.hist);
        Then(r, s.(ctl := if s.ctl.Next? then Next(JoinLast(r.ctl.last, s.ctl.last)) else s.ctl))
  }

  /** The first `k` iterations, each in the scope the loop stands in. */
  function LexLoop(w: World, loopVar: string, stmts: seq<Stmt>, items: seq<Value>, k: nat, at: Loc, env: Env,
      hist: seq<Request>): Lex
    requires k <= |items|
    decreases stmts, 2, k
  {
    hide *;
    if k == 0 then Began(env, hist)
    else
      var r := LexLoop(w, loopVar, stmts, items, k - 1, at, env, hist);
      if !r.ctl.Next? then r
      else
        var s := LexAll(w, stmts, |stmts|, at, Insert(env, loopVar, items[k - 1]), r.hist);
        Then(r, s.(env := env, ctl := LexLoopCtl(stmts, s.ctl)))
  }

  /** As for a lowered loop: one that can return ends when an iteration leaves a value. */
  function LexLoopCtl(stmts: seq<Stmt>, c: Ctl): Ctl {
    hide *;
    match c
    case Fail(silent) => Fail(silent)
    case Return(v) => if CanReturn(stmts) then Return(v) else Next(None)
    case Next(last) => if CanReturn(stmts) && last.Some? then Return(last.value) else Next(None)
  }

  /** The first arm from `k` on that matches. */
  function ArmIndex(arms: seq<Arm>, v: Value, k: nat): (i: nat)
    requires k <= |arms|
    ensures k <= i <= |arms| && (i < |arms| ==> MatchPattern(arms[i].pattern, v).Some?)
    decreases |arms| - k
  {
    if k == |arms| || MatchPattern(arms[k].pattern, v).Some? then k else ArmIndex(arms, v, k + 1)
  }

  /** Retry arms are not run here. */
  function LexArm(w: World, arm: Arm, v: Value, at: Loc, env: Env, hist: seq<Request>): Lex
    requires MatchPattern(arm.pattern, v).Some?
    decreases arm, 0
  {
    hide *;
    var inner := InsertAll(env, MatchPattern(arm.pattern, v).value);
    assert arm.body < arm;
    match arm.body
    case Value(e) => Lex(env, [], hist, Ending(Eval(e, inner, None).val))
    case Block(stmts) =>
      var r := LexAll(w, stmts, |stmts|, at, inner, hist);
      r.(env := env, ctl := BodyValue(r.ctl))
    case Retry(_) => Lex(env, [], hist, Fail(false))
  }

  // ---------- records stay under their statement ----------

  lemma {:induction false} LogUnder(w: World, s: Stmt, at: Loc, env: Env, hist: seq<Request>)
    ensures forall r | r in LexStmt(w, s, at, env, hist).log :: at <= r.at
    decreases s, 0
  {
    hide RunBody, RunOrder, RunWaves, RunNode, RunLoop, RunMatch, RunTail, NodeStep, RoundStep, LaunchTo, Prepare,
      EvalPath, ApplyPipeline, Eval, FetchOne;
    match s {
      case ParallelS(stmts) => LogAllUnder(w, stmts, |stmts|, at, env, hist);
      case ForEachS(loopVar, iter, stmts) =>
        var c := Eval(iter, env, None).val;
        if c.Some? { LogLoopUnder(w, loopVar, stmts, c.value.Items(), |c.value.Items()|, at, env, hist); }
      case ExprS(expr, _) =>
        if expr.Match? {
          var v := Eval(expr.scrutinee, env, None).val;
          if v.Some? && ArmIndex(expr.arms, v.value, 0) < |expr.arms| {
            var i := ArmIndex(expr.arms, v.value, 0);
            LogArmUnder(w, expr.arms[i], v.value, at + [i], env, hist);
            forall r | r in LexArm(w, expr.arms[i], v.value, at + [i], env, hist).log
                ensures at <= r.at { PrefixChain(at, i, r.at); }
          }
        }
      case _ =>
    }
  }

  lemma {:induction false} LogAllUnder(w: World, stmts: seq<Stmt>, k: nat, at: Loc, env: Env, hist: seq<Request>)
    requires hide *; k <= |stmts|
    ensures forall r | r in LexAll(w, stmts, k, at, env, hist).log :: at <= r.at && |r.at| > |at| && r.at[|at|] < k
    decreases stmts, 1, k
  {
    hide RunBody, RunOrder, RunWaves, RunNode, RunLoop, RunMatch, RunTail, NodeStep, RoundStep, LaunchTo, FetchOne,
      Prepare, EvalPath, Eval, ApplyPipeline;
    if k > 0 {
      LogAllUnder(w, stmts, k - 1, at, env, hist);
      var r := LexAll(w, stmts, k - 1, at, env, hist);
      if r.ctl.Next? {
        LogUnder(w, stmts[k - 1], at + [k - 1], r.env, r.hist);
        forall x | x in LexStmt(w, stmts[k - 1], at + [k - 1], r.env, r.hist).log
          ensures at <= x.at && |x.at| > |at| && x.at[|at|] == k - 1
        {
          PrefixChain(at, k - 1, x.at);
        }
      }
    }
  }

  lemma {:induction false} LogLoopUnder(w: World, loopVar: string, stmts: seq<Stmt>, items: seq<Value>, k: nat,
      at: Loc, env: Env, hist: seq<Request>)
    requires hide *; k <= |items|
    ensures forall r | r in LexLoop(w, loopVar, stmts, items, k, at, env, hist).log :: at <= r.at
    decreases stmts, 2, k
  {
    hide RunBody, RunOrder, RunWaves, RunNode, RunLoop, RunMatch, RunTail, NodeStep, RoundStep, LaunchTo, FetchOne,
      Prepare, EvalPath, Eval, ApplyPipeline;
    if k > 0 {
      LogLoopUnder(w, loopVar, stmts, items, k - 1, at, env, hist);
      var r := LexLoop(w, loopVar, stmts, items, k - 1, at, env, hist);
      if r.ctl.Next? { LogAllUnder(w, stmts, |stmts|, at, Insert(env, loopVar, items[k - 1]), r.hist); }
    }
  }

  lemma {:induction false} LogArmUnder(w: World, arm: Arm, v: Value, at: Loc, env: Env, hist: seq<Request>)
    requires hide *; MatchPattern(arm.pattern, v).Some?
    ensures forall r | r in LexArm(w, arm, v, at, env, hist).log :: at <= r.at
    decreases arm, 0
  {
    hide RunBody, RunOrder, RunWaves, RunNode, RunLoop, RunMatch, RunTail, NodeStep, RoundStep, LaunchTo, FetchOne,
      Prepare, EvalPath, Eval, ApplyPipeline;
    if arm.body.Block? {
      assert arm.body < arm;
      var stmts := arm.body.stmts;
      LogAllUnder(w, stmts, |stmts|, at, InsertAll(env, MatchPattern(arm.pattern, v).value), hist);
    }
  }
}
