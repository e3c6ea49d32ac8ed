/** What the loop analysis promises: a fetch it finds not to depend on the loop sends the identical
    request every time it is executed. */
module LoopInvariance {
  import opened Wrappers
  import opened Ast
  import opened Values
  import opened Evaluator
  import opened Frames
  import opened Ir
  import opened Exec
  import opened FetchFrames
  import opened Lowering
  import opened LoopTaint
  import opened LexicalRun

  // ---------- what is asked of the statements ----------

  /** The free variables are all that matters: no `$NAME`, one argument to a constructor pattern. */
  predicate Exact(e: Expr) { Vars(e, true) <= FreeVars(e) }

  predicate PlainFetch(f: FetchStmt, inLoop: bool) {
    && InputVars(f, true) <= InputVars(f, false)
    && (inLoop && f.bind.Some? ==> f.httpMethod == "GET")
  }

  /** Within loops only results of GETs are bound; matches are not bound. */
  predicate Plain(s: Stmt, inLoop: bool)
    decreases s, 0
  {
    hide *;
    match s
    case FetchS(f) => PlainFetch(f, inLoop)
    case LetS(_, value) => Exact(value)
    case ParallelS(stmts) => PlainAll(stmts, inLoop)
    case ForEachS(_, _, stmts) => PlainAll(stmts, true)
    case ExprS(expr, bind) =>
      if expr.Match? then bind.None? && Exact(expr.scrutinee) && assert expr < s; PlainArms(expr.arms, inLoop)
      else bind.Some? ==> Exact(expr)
    case _ => true
  }

  predicate PlainAll(stmts: seq<Stmt>, inLoop: bool)
    decreases stmts, 0
  {
    hide *;
    forall i | 0 <= i < |stmts| :: Plain(stmts[i], inLoop)
  }

  predicate PlainArms(arms: seq<Arm>, inLoop: bool)
    decreases arms, 0
  {
    hide *;
    forall i | 0 <= i < |arms| :: PlainArm(arms[i], inLoop)
  }

  predicate PlainArm(arm: Arm, inLoop: bool)
    decreases arm, 0
  {
    hide *;
    arm.body.Block? ==> assert arm.body < arm; PlainAll(arm.body.stmts, inLoop)
  }

  // ---------- two runs side by side ----------

  /** Equal but on names that vary with a loop. */
  ghost predicate Alike(a: Env, b: Env, t: Taint) {
    a.os == b.os && forall x | x !in t.looped :: Lookup(a, x) == Lookup(b, x)
  }

  ghost predicate SameRequest(a: Attempt, b: Attempt, x: Site) {
    a.at == x.at && b.at == x.at && !x.depends ==> a.req == b.req
  }

  ghost predicate Agreed(l: seq<Attempt>, m: seq<Attempt>, sites: seq<Site>) {
    forall a, b, x | a in l && b in m && x in sites :: SameRequest(a, b, x)
  }

  /** Two runs of the same statement, from places that may differ only within loops. */
  ghost predicate Beside(a: Env, g: seq<Request>, b: Env, h: seq<Request>, t: Taint, inLoop: bool) {
    Alike(a, b, t) && (inLoop || (a == b && g == h))
  }

  ghost predicate InStep(r: Lex, s: Lex, t: Taint, inLoop: bool) {
    r.ctl.Next? && s.ctl.Next? ==> Beside(r.env, r.hist, s.env, s.hist, t, inLoop)
  }

  lemma AlikeAgree(a: Env, b: Env, t: Taint, e: Expr)
    requires Alike(a, b, t) && Exact(e) && FreeVars(e) !! t.looped
    ensures Eval(e, a, None) == Eval(e, b, None)
  {
    hide Eval, Vars;
    FreeVarsSuffice(e, a, b, None);
  }

  lemma SameFetch(w: World, f: FetchStmt, a: Env, g: seq<Request>, b: Env, h: seq<Request>, t: Taint)
    requires Alike(a, b, t) && InputVars(f, true) <= InputVars(f, false) && !DependsOnLoop(f, t)
    ensures Prepare(LowerFetch(f), a) == Prepare(LowerFetch(f), b)
    ensures f.httpMethod == "GET" ==> FetchOne(w, LowerFetch(f), a, g) == FetchOne(w, LowerFetch(f), b, h)
  {
    hide EvalPath, Eval, ApplyPipeline, Prepare, FetchOne, PathVars, FieldsVars, OpsVars, Vars;
    assert FetchVars(LowerFetch(f), true) == InputVars(f, true);
    PrepareFrame(LowerFetch(f), a, b);
    FetchFrame(w, LowerFetch(f), a, b, h);
    if f.httpMethod == "GET" { GetIgnoresHistory(w, LowerFetch(f), a, g, h); }
  }

  /** The request of a fetch is fixed by what `Prepare` builds. */
  lemma SentIsPrepared(w: World, f: FetchIr, env: Env, hist: seq<Request>)
    ensures hide *; var one, plan := FetchOne(w, f, env, hist), Prepare(f, env).val;
            (if one.sent.Some? then Some(one.sent.value.req) else None) == (if plan.Some? then plan.value else None)
  {
    hide Eval, ApplyPipeline, Prepare;
  }

  lemma FetchLexed(w: World, f: FetchStmt, at: Loc, env: Env, hist: seq<Request>)
    ensures hide *; var r, one := LexStmt(w, FetchS(f), at, env, hist), FetchOne(w, LowerFetch(f), env, hist);
            && r.log == [Attempt(at, if one.sent.Some? then Some(one.sent.value.req) else None)]
            && r.hist == hist + (if one.sent.Some? then MutationsOf([one.sent.value]) else [])
            && (r.ctl.Next? <==> one.val.Some?)
            && (r.ctl.Next? && f.bind.Some? ==> r.env == Insert(env, f.bind.value.name, one.val.value))
            && (f.bind.None? ==> r.env == env)
  {
    hide RunBody, RunOrder, RunWaves, RunNode, RunLoop, RunMatch, RunTail, NodeStep, RoundStep, LaunchTo, Prepare,
      EvalPath, Eval, ApplyPipeline, Vars, FetchOne, LowerFetch;
  }

  lemma CrossFetch(w: World, f: FetchStmt, at: Loc, t: Taint, loops: seq<LoopFrame>, inLoop: bool, a: Env,
      g: seq<Request>, b: Env, h: seq<Request>)
    requires PlainFetch(f, inLoop) && Beside(a, g, b, h, t, inLoop)
    ensures var r, s := LexStmt(w, FetchS(f), at, a, g), LexStmt(w, FetchS(f), at, b, h);
            Agreed(r.log, s.log, Sites(FetchS(f), at, t, loops)) && InStep(r, s, Past(FetchS(f), t), inLoop)
  {
    hide RunBody, RunOrder, RunWaves, RunNode, RunLoop, RunMatch, RunTail, NodeStep, RoundStep, LaunchTo, EvalPath,
      Eval, ApplyPipeline, Vars, FreeVars, Prepare, FetchOne, MutationsOf, LowerFetch, InputVars;
    SentIsPrepared(w, LowerFetch(f), a, g);
    SentIsPrepared(w, LowerFetch(f), b, h);
    if !DependsOnLoop(f, t) { SameFetch(w, f, a, g, b, h, t); }
    hide DependsOnLoop;
    FetchLexed(w, f, at, a, g);
    FetchLexed(w, f, at, b, h);
    hide LexStmt;
  }

  lemma CrossLet(w: World, name: string, value: Expr, from: set<string>, t: Taint, a: Env, b: Env, v: Value, u: Value)
    requires Alike(a, b, t) && (from !! t.looped ==> v == u)
    ensures Alike(Insert(a, name, v), Insert(b, name, u), Assign(t, name, from))
  {
    hide RunBody, RunOrder, RunWaves, RunNode, RunLoop, RunMatch, RunTail, NodeStep, RoundStep, LaunchTo, FetchOne,
      Prepare, EvalPath, Eval, ApplyPipeline, Vars;
  }

  // ---------- logs and sites of different statements ----------

  ghost predicate Below(at: Loc, k: nat, x: Loc) { at <= x && |x| > |at| && x[|at|] < k }

  ghost predicate On(at: Loc, k: nat, x: Loc) { at <= x && |x| > |at| && x[|at|] == k }

  /** What is before position `k` and what is at it do not meet. */
  lemma AgreedJoin(at: Loc, k: nat, l: seq<Attempt>, m: seq<Attempt>, l2: seq<Attempt>, m2: seq<Attempt>,
      sites: seq<Site>, sites2: seq<Site>)
    requires Agreed(l, m, sites) && Agreed(l2, m2, sites2)
    requires forall r | r in l || r in m :: Below(at, k, r.at)
    requires forall r | r in l2 || r in m2 :: On(at, k, r.at)
    requires forall x | x in sites :: Below(at, k, x.at)
    requires forall x | x in sites2 :: On(at, k, x.at)
    ensures Agreed(l + l2, m + m2, sites + sites2)
  {
    forall a, b, x | a in l + l2 && b in m + m2 && x in sites + sites2 ensures SameRequest(a, b, x) {
      if a.at == x.at == b.at {
        assert x in sites || x in sites2;
      }
    }
  }

  lemma LogOn(w: World, s: Stmt, at: Loc, k: nat, env: Env, hist: seq<Request>)
    ensures forall r | r in LexStmt(w, s, at + [k], env, hist).log :: On(at, k, r.at)
  {
    hide LexStmt;
    LogUnder(w, s, at + [k], env, hist);
    forall r | r in LexStmt(w, s, at + [k], env, hist).log ensures On(at, k, r.at) { PrefixChain(at, k, r.at); }
  }

  lemma SitesOn(s: Stmt, at: Loc, k: nat, t: Taint, loops: seq<LoopFrame>)
    ensures forall x | x in Sites(s, at + [k], t, loops) :: On(at, k, x.at)
  {
    hide Sites;
    SitesUnder(s, at + [k], t, loops);
    forall x | x in Sites(s, at + [k], t, loops) ensures On(at, k, x.at) { PrefixChain(at, k, x.at); }
  }

  // ---------- the two runs agree ----------

  lemma {:induction false} CrossStmt(w: World, s: Stmt, at: Loc, t: Taint, loops: seq<LoopFrame>, inLoop: bool, a: Env,
      g: seq<Request>, b: Env, h: seq<Request>)
    requires Plain(s, inLoop) && Beside(a, g, b, h, t, inLoop)
    ensures Agreed(LexStmt(w, s, at, a, g).log, LexStmt(w, s, at, b, h).log, Sites(s, at, t, loops))
    ensures InStep(LexStmt(w, s, at, a, g), LexStmt(w, s, at, b, h), Past(s, t), inLoop)
    decreases s, 0
  {
    hide RunBody, RunOrder, RunWaves, RunNode, RunLoop, RunMatch, RunTail, NodeStep, RoundStep, LaunchTo, Prepare,
      EvalPath, ApplyPipeline, Vars, Eval, FetchOne;
    match s {
      case FetchS(f) => CrossFetch(w, f, at, t, loops, inLoop, a, g, b, h);
      case LetS(name, value) =>
        var v, u := Eval(value, a, None).val, Eval(value, b, None).val;
        if FreeVars(value) !! t.looped { AlikeAgree(a, b, t, value); }
        if v.Some? && u.Some? { CrossLet(w, name, value, FreeVars(value), t, a, b, v.value, u.value); }
      case ParallelS(stmts) => CrossAll(w, stmts, |stmts|, at, t, loops, inLoop, a, g, b, h);
      case ForEachS(loopVar, iter, stmts) =>
        CrossForEach(w, loopVar, iter, stmts, at, t, loops, inLoop, a, g, b, h);
      case ExprS(expr, bind) =>
        if expr.Match? {
          CrossMatch(w, expr, at, t, loops, inLoop, a, g, b, h);
        } else if bind.Some? {
          var v, u := Eval(expr, a, None).val, Eval(expr, b, None).val;
          if FreeVars(expr) !! t.looped { AlikeAgree(a, b, t, expr); }
          if v.Some? && u.Some? { CrossLet(w, bind.value.name, expr, FreeVars(expr), t, a, b, v.value, u.value); }
        }
      case _ =>
    }
  }

  lemma {:induction false} CrossAll(w: World, stmts: seq<Stmt>, k: nat, at: Loc, t: Taint, loops: seq<LoopFrame>,
      inLoop: bool, a: Env, g: seq<Request>, b: Env, h: seq<Request>)
    requires hide *; k <= |stmts| && PlainAll(stmts, inLoop) && Beside(a, g, b, h, t, inLoop)
    ensures Agreed(LexAll(w, stmts, k, at, a, g).log, LexAll(w, stmts, k, at, b, h).log,
            SitesIn(stmts, k, at, t, loops))
    ensures InStep(LexAll(w, stmts, k, at, a, g), LexAll(w, stmts, k, at, b, h), PastAll(stmts, k, t), inLoop)
    decreases stmts, 1, k
  {
    hide RunBody, RunOrder, RunWaves, RunNode, RunLoop, RunMatch, RunTail, NodeStep, RoundStep, LaunchTo, FetchOne,
      Prepare, EvalPath, Eval, ApplyPipeline, Vars, Plain, LexStmt, Sites, Past, Agreed, Alike;
    if k == 0 {
      NothingLogged([], []);
    } else {
      CrossAll(w, stmts, k - 1, at, t, loops, inLoop, a, g, b, h);
      var r, s := LexAll(w, stmts, k - 1, at, a, g), LexAll(w, stmts, k - 1, at, b, h);
      var u := PastAll(stmts, k - 1, t);
      LogAllUnder(w, stmts, k - 1, at, a, g);
      LogAllUnder(w, stmts, k - 1, at, b, h);
      SitesInUnder(stmts, k - 1, at, t, loops);
      SitesOn(stmts[k - 1], at, k - 1, u, loops);
      var l, m := StepLog(w, stmts[k - 1], at + [k - 1], r), StepLog(w, stmts[k - 1], at + [k - 1], s);
      LogOn(w, stmts[k - 1], at, k - 1, r.env, r.hist);
      LogOn(w, stmts[k - 1], at, k - 1, s.env, s.hist);
      if r.ctl.Next? && s.ctl.Next? {
        CrossStmt(w, stmts[k - 1], at + [k - 1], u, loops, inLoop, r.env, r.hist, s.env, s.hist);
      } else {
        NothingMeets(l, m, Sites(stmts[k - 1], at + [k - 1], u, loops));
      }
      AgreedJoin(at, k - 1, r.log, s.log, l, m, SitesIn(stmts, k - 1, at, t, loops),
          Sites(stmts[k - 1], at + [k - 1], u, loops));
      assert LexAll(w, stmts, k, at, a, g).log == r.log + l && LexAll(w, stmts, k, at, b, h).log == s.log + m;
    }
  }

  /** What a statement adds to the log after `r`. */
  ghost function StepLog(w: World, s: Stmt, at: Loc, r: Lex): seq<Attempt> {
    if r.ctl.Next? then LexStmt(w, s, at, r.env, r.hist).log else []
  }

  lemma NothingMeets(l: seq<Attempt>, m: seq<Attempt>, sites: seq<Site>)
    requires l == [] || m == []
    ensures Agreed(l, m, sites)
  {
  }

  lemma NothingLogged(l: seq<Attempt>, sites: seq<Site>)
    ensures Agreed([], l, sites)
  {
  }

  /** Any iteration of one run against any iteration of the other. */
  lemma {:induction false} CrossForEach(w: World, loopVar: string, iter: Expr, stmts: seq<Stmt>, at: Loc, t: Taint,
      loops: seq<LoopFrame>, inLoop: bool, a: Env, g: seq<Request>, b: Env, h: seq<Request>)
    requires PlainAll(stmts, true) && Beside(a, g, b, h, t, inLoop)
    ensures var s := ForEachS(loopVar, iter, stmts);
            && Agreed(LexStmt(w, s, at, a, g).log, LexStmt(w, s, at, b, h).log, Sites(s, at, t, loops))
            && InStep(LexStmt(w, s, at, a, g), LexStmt(w, s, at, b, h), Past(s, t), inLoop)
    decreases stmts, 2, 0
  {
    hide RunBody, RunOrder, RunWaves, RunNode, RunLoop, RunMatch, RunTail, NodeStep, RoundStep, LaunchTo, FetchOne,
      Prepare, EvalPath, ApplyPipeline, Vars, Eval;
    var s := ForEachS(loopVar, iter, stmts);
    var c, d := Eval(iter, a, None).val, Eval(iter, b, None).val;
    var inner, sites := Inside(loopVar, iter, t), Sites(s, at, t, loops);
    if c.Some? && d.Some? {
      var xs, ys := c.value.Items(), d.value.Items();
      LoopScope(w, loopVar, stmts, xs, |xs|, at, a, g);
      LoopScope(w, loopVar, stmts, ys, |ys|, at, b, h);
      forall p, q, x | p in LexLoop(w, loopVar, stmts, xs, |xs|, at, a, g).log
          && q in LexLoop(w, loopVar, stmts, ys, |ys|, at, b, h).log && x in sites
        ensures SameRequest(p, q, x)
      {
        var i, gi := IterationOf(w, loopVar, stmts, xs, |xs|, at, a, g, p);
        var j, hj := IterationOf(w, loopVar, stmts, ys, |ys|, at, b, h, q);
        CrossAll(w, stmts, |stmts|, at, inner, loops + [FrameOf(loopVar, iter, t)], true, Insert(a, loopVar, xs[i]),
            gi, Insert(b, loopVar, ys[j]), hj);
      }
    }
  }

  lemma {:induction false} LoopScope(w: World, loopVar: string, stmts: seq<Stmt>, items: seq<Value>, k: nat, at: Loc,
      env: Env, hist: seq<Request>)
    requires hide *; k <= |items|
    ensures LexLoop(w, loopVar, stmts, items, k, at, env, hist).env == env
  {
    hide RunBody, RunOrder, RunWaves, RunNode, RunLoop, RunMatch, RunTail, NodeStep, RoundStep, LaunchTo, FetchOne,
      Prepare, EvalPath, Eval, ApplyPipeline, Vars, LexAll;
    if k > 0 { LoopScope(w, loopVar, stmts, items, k - 1, at, env, hist); }
  }

  lemma {:induction false} IterationOf(w: World, loopVar: string, stmts: seq<Stmt>, items: seq<Value>, k: nat, at: Loc,
      env: Env, hist: seq<Request>, r: Attempt)
    returns (i: nat, seen: seq<Request>)
    requires hide *; k <= |items| && r in LexLoop(w, loopVar, stmts, items, k, at, env, hist).log
    ensures i < k && r in LexAll(w, stmts, |stmts|, at, Insert(env, loopVar, items[i]), seen).log
  {
    hide RunBody, RunOrder, RunWaves, RunNode, RunLoop, RunMatch, RunTail, NodeStep, RoundStep, LaunchTo, FetchOne,
      Prepare, EvalPath, Eval, ApplyPipeline, Vars, LexAll;
    var before := LexLoop(w, loopVar, stmts, items, k - 1, at, env, hist);
    if r in before.log {
      i, seen := IterationOf(w, loopVar, stmts, items, k - 1, at, env, hist, r);
    } else {
      i, seen := k - 1, before.hist;
    }
  }

  // ---------- matches ----------

  lemma {:induction false} CrossMatch(w: World, m: Expr, at: Loc, t: Taint, loops: seq<LoopFrame>, inLoop: bool,
      a: Env, g: seq<Request>, b: Env, h: seq<Request>)
    requires hide *; m.Match? && Exact(m.scrutinee) && PlainArms(m.arms, inLoop) && Beside(a, g, b, h, t, inLoop)
    ensures var s := ExprS(m, None);
            && Agreed(LexStmt(w, s, at, a, g).log, LexStmt(w, s, at, b, h).log, Sites(s, at, t, loops))
            && InStep(LexStmt(w, s, at, a, g), LexStmt(w, s, at, b, h), Past(s, t), inLoop)
    decreases m, 0
  {
    hide RunBody, RunOrder, RunWaves, RunNode, RunLoop, RunMatch, RunTail, NodeStep, RoundStep, LaunchTo, FetchOne,
      Prepare, EvalPath, ApplyPipeline, Vars, Eval, LexAll, SitesIn, ArmSites;
    var v, u := Eval(m.scrutinee, a, None).val, Eval(m.scrutinee, b, None).val;
    if FreeVars(m.scrutinee) !! t.looped { AlikeAgree(a, b, t, m.scrutinee); }
    if v.Some? && u.Some? && ArmIndex(m.arms, v.value, 0) < |m.arms| && ArmIndex(m.arms, u.value, 0) < |m.arms| {
      var i, j := ArmIndex(m.arms, v.value, 0), ArmIndex(m.arms, u.value, 0);
      var l, n := LexArm(w, m.arms[i], v.value, at + [i], a, g), LexArm(w, m.arms[j], u.value, at + [j], b, h);
      LogArmUnder(w, m.arms[i], v.value, at + [i], a, g);
      LogArmUnder(w, m.arms[j], u.value, at + [j], b, h);
      var sites := ArmSites(m.scrutinee, m.arms, |m.arms|, at, t, loops);
      if i == j {
        CrossArm(w, m.scrutinee, m.arms[i], v.value, u.value, at + [i], t, loops, inLoop, a, g, b, h);
      }
      forall p, q, x | p in l.log && q in n.log && x in sites ensures SameRequest(p, q, x) {
        PrefixChain(at, i, p.at);
        PrefixChain(at, j, q.at);
        if p.at == x.at == q.at { SiteOfArm(m.scrutinee, m.arms, |m.arms|, at, t, loops, x, i); }
      }
    }
  }

  lemma {:induction false} SiteOfArm(scrutinee: Expr, arms: seq<Arm>, k: nat, at: Loc, t: Taint, loops: seq<LoopFrame>,
      x: Site, i: nat)
    requires hide *; i < |arms| && k <= |arms| && x in ArmSites(scrutinee, arms, k, at, t, loops) && On(at, i, x.at)
    ensures x in SitesOfArm(scrutinee, arms[i], at + [i], t, loops)
    decreases k
  {
    hide Vars, SitesIn;
    if x in ArmSites(scrutinee, arms, k - 1, at, t, loops) {
      SiteOfArm(scrutinee, arms, k - 1, at, t, loops, x, i);
    } else {
      ArmSitesOn(scrutinee, arms[k - 1], at, k - 1, t, loops);
    }
  }

  lemma ArmSitesOn(scrutinee: Expr, arm: Arm, at: Loc, k: nat, t: Taint, loops: seq<LoopFrame>)
    ensures forall x | x in SitesOfArm(scrutinee, arm, at + [k], t, loops) :: On(at, k, x.at)
  {
    hide Vars;
    if arm.body.Block? {
      var stmts, inner := arm.body.stmts, InArm(scrutinee, arm.pattern, t);
      SitesInUnder(stmts, |stmts|, at + [k], inner, loops);
      forall x | x in SitesIn(stmts, |stmts|, at + [k], inner, loops)
          ensures On(at, k, x.at) { PrefixChain(at, k, x.at); }
    }
  }

  /** Names captured from values that may differ are marked as varying. */
  lemma CapturedAlike(scrutinee: Expr, p: Pattern, v: Value, u: Value, t: Taint, a: Env, b: Env)
    requires hide *; Alike(a, b, t) && MatchPattern(p, v).Some? && MatchPattern(p, u).Some?
    requires FreeVars(scrutinee) !! t.looped ==> v == u
    ensures Alike(InsertAll(a, MatchPattern(p, v).value), InsertAll(b, MatchPattern(p, u).value),
            InArm(scrutinee, p, t))
  {
    hide Vars;
    MatchCaptures(p, v);
    MatchCaptures(p, u);
    PatternCaptures(p);
  }

  lemma {:induction false} CrossArm(w: World, scrutinee: Expr, arm: Arm, v: Value, u: Value, at: Loc, t: Taint,
      loops: seq<LoopFrame>, inLoop: bool, a: Env, g: seq<Request>, b: Env, h: seq<Request>)
    requires hide *; MatchPattern(arm.pattern, v).Some? && MatchPattern(arm.pattern, u).Some?
    requires FreeVars(scrutinee) !! t.looped ==> v == u
    requires !inLoop ==> v == u
    requires PlainArm(arm, inLoop) && Beside(a, g, b, h, t, inLoop)
    ensures Agreed(LexArm(w, arm, v, at, a, g).log, LexArm(w, arm, u, at, b, h).log,
            SitesOfArm(scrutinee, arm, at, t, loops))
    decreases arm, 0
  {
    hide RunBody, RunOrder, RunWaves, RunNode, RunLoop, RunMatch, RunTail, NodeStep, RoundStep, LaunchTo, FetchOne,
      Prepare, EvalPath, ApplyPipeline, Vars, Eval;
    if arm.body.Block? {
      assert arm.body < arm;
      CapturedAlike(scrutinee, arm.pattern, v, u, t, a, b);
      CrossAll(w, arm.body.stmts, |arm.body.stmts|, at, InArm(scrutinee, arm.pattern, t), loops, inLoop,
               InsertAll(a, MatchPattern(arm.pattern, v).value), g, InsertAll(b, MatchPattern(arm.pattern, u).value),
                   h);
    }
  }

  // ---------- the theorem ----------

  const CLEAN: Taint := Taint({}, {})

  /** A fetch that does not depend on a loop sends the identical request every time it is executed, in
      every iteration of all the loops around it. */
  lemma InvariantFetchRepeats(w: World, stmts: seq<Stmt>, env: Env, hist: seq<Request>, x: Site, a: Attempt, b: Attempt)
    requires hide *; PlainAll(stmts, false)
    requires x in SitesIn(stmts, |stmts|, [], CLEAN, []) && !x.depends
    requires a in LexAll(w, stmts, |stmts|, [], env, hist).log && b in LexAll(w, stmts, |stmts|, [], env, hist).log
    requires a.at == x.at && b.at == x.at
    ensures a.req == b.req
  {
    hide RunBody, RunOrder, RunWaves, RunNode, RunLoop, RunMatch, RunTail, NodeStep, RoundStep, LaunchTo, FetchOne,
      Prepare, EvalPath, Eval, ApplyPipeline, Vars, LexAll, SitesIn, PlainAll;
    CrossAll(w, stmts, |stmts|, [], CLEAN, [], false, env, hist, env, hist);
    assert SameRequest(a, b, x);
  }

  /** What is reported as loop-invariant is. */
  lemma ReportedInvariantRepeats(w: World, stmts: seq<Stmt>, env: Env, hist: seq<Request>, batched: set<string>,
      r: Report, a: Attempt, b: Attempt)
    requires hide *; PlainAll(stmts, false)
    requires r in Reports(SitesIn(stmts, |stmts|, [], CLEAN, []), batched) && r.verdict.LoopInvariant?
    requires a in LexAll(w, stmts, |stmts|, [], env, hist).log && b in LexAll(w, stmts, |stmts|, [], env, hist).log
    requires a.at == r.at && b.at == r.at
    ensures a.req == b.req
  {
    hide RunBody, RunOrder, RunWaves, RunNode, RunLoop, RunMatch, RunTail, NodeStep, RoundStep, LaunchTo, FetchOne,
      Prepare, EvalPath, Eval, ApplyPipeline, Vars, LexAll, SitesIn, PlainAll;
    var x := ReportHasSite(SitesIn(stmts, |stmts|, [], CLEAN, []), batched, r);
    InvariantFetchRepeats(w, stmts, env, hist, x, a, b);
  }
}
