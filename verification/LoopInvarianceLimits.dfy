/** Where a fetch that is found not to depend on the loop varies all the same. */
module LoopInvarianceLimits {
  import opened Wrappers
  import opened Ast
  import opened Values
  import opened Evaluator
  import opened Exec
  import opened Lowering
  import opened LoopTaint
  import opened LexicalRun
  import opened LoopInvariance

  /** An execution of the fetch `x` in a run of the statements. */
  ghost predicate Executed(w: World, stmts: seq<Stmt>, env: Env, x: Site, a: Attempt) {
    hide *;
    x in SitesIn(stmts, |stmts|, [], CLEAN, []) && a in LexAll(w, stmts, |stmts|, [], env, []).log && a.at == x.at
  }

  /** Fetches found not to depend on a loop send the identical request in every run. */
  ghost predicate Repeats(stmts: seq<Stmt>) {
    forall w, env, x, a, b | Executed(w, stmts, env, x, a) && Executed(w, stmts, env, x, b)
        && !x.depends :: a.req == b.req
  }

  function Ask(httpMethod: string, path: seq<PathSeg>, name: string): FetchStmt {
    FetchStmt(httpMethod, "E", path, [], None, None, [], Some(Bind(name, None)))
  }

  /** `for u in [1, 2] { fetch m E /a -> r; fetch GET E /{r} -> s }`. */
  function AskTwice(httpMethod: string): seq<Stmt> {
    [ForEachS("u", Expr.Array([Expr.Int(1), Expr.Int(2)]), AskBody(httpMethod))]
  }

  function AskBody(httpMethod: string): seq<Stmt> {
    [FetchS(Ask(httpMethod, [Literal("a")], "r")), FetchS(Ask("GET", [Param(Ident("r"))], "s"))]
  }

  /** A counter: every request but a GET is answered with the number of those before it. */
  function Counter(): World {
    World(r => Success(Value.Null), (hist: seq<Request>, r) => Success(Value.Int(|hist|)), (v, t) => None,
        (ids, env) => ids)
  }

  // ---------- the run against the counter ----------

  function First(httpMethod: string): Request { Request(httpMethod, "E", "/a", multiset{}, None, None) }

  function Second(n: nat): Request { Request("GET", "E", "/" + Value.Int(n).Display(), multiset{}, None, None) }

  lemma OneSegment(seg: PathSeg, v: Value, text: string, env: Env)
    requires hide *; seg == Literal(text) || (seg.Param? && Eval(seg.e, env, None) == Done(v) && v.Display() == text)
    ensures EvalPath([seg], env) == Done("/" + text)
  {
    hide Eval;
    assert [seg][1..] == [];
    assert "/" + text + "" == "/" + text;
  }

  lemma AskSends(httpMethod: string, seg: PathSeg, text: string, name: string, env: Env, hist: seq<Request>)
    requires EvalPath([seg], env) == Done("/" + text)
    ensures var f, req := LowerFetch(Ask(httpMethod, [seg], name)),
            Request(httpMethod, "E", "/" + text, multiset{}, None, None);
            var one := FetchOne(Counter(), f, env, hist);
            && one.sent == Some(Sent(req, None))
            && one.val == Some(if httpMethod == "GET" then Value.Null else Value.Int(|hist|))
  {
    hide EvalPath;
    var f := LowerFetch(Ask(httpMethod, [seg], name));
    assert EvalParams([], env) == Done(multiset{});
    var none: multiset<(string, string)> := multiset{};
    assert none + none == none;
    assert Prepare(f, env).val == Some(Some(Request(httpMethod, "E", "/" + text, multiset{}, None, None)));
    hide Prepare;
    assert ApplyPipeline(Value.Null, [], env).val == Some(Value.Null);
    assert ApplyPipeline(Value.Int(|hist|), [], env).val == Some(Value.Int(|hist|));
  }

  lemma AskStmt(httpMethod: string, seg: PathSeg, text: string, name: string, at: Loc, env: Env, hist: seq<Request>)
    requires EvalPath([seg], env) == Done("/" + text)
    ensures var req := Request(httpMethod, "E", "/" + text, multiset{}, None, None);
            LexStmt(Counter(), FetchS(Ask(httpMethod, [seg], name)), at, env, hist)
            == Lex(Insert(env, name, if httpMethod == "GET" then Value.Null else Value.Int(|hist|)),
                [Attempt(at, Some(req))],
                   hist + (if httpMethod == "GET" then [] else [req]), Next(None))
  {
    hide RunBody, RunOrder, RunWaves, RunNode, RunLoop, RunMatch, RunTail, NodeStep, RoundStep, LaunchTo, Prepare,
      EvalPath, Eval, ApplyPipeline;
    AskSends(httpMethod, seg, text, name, env, hist);
    hide FetchOne;
    MutationOfOne(Sent(Request(httpMethod, "E", "/" + text, multiset{}, None, None), None));
  }

  /** The mutation of an iteration. */
  lemma AskFirst(httpMethod: string, env: Env, hist: seq<Request>)
    requires hide RunBody, RunOrder, RunWaves, RunNode, RoundStep, FetchOne, Eval, ApplyPipeline; httpMethod != "GET"
    ensures LexAll(Counter(), AskBody(httpMethod), 1, [0], env, hist)
            == Lex(Insert(env, "r", Value.Int(|hist|)), [Attempt([0, 0], Some(First(httpMethod)))],
                   hist + [First(httpMethod)], Next(None))
  {
    hide RunBody, RunOrder, RunWaves, RunNode, RunLoop, RunMatch, RunTail, NodeStep, RoundStep, LaunchTo, FetchOne,
      Prepare, ApplyPipeline, Eval;
    var stmts := AskBody(httpMethod);
    OneSegment(Literal("a"), Value.Int(|hist|), "a", env);
    AskStmt(httpMethod, Literal("a"), "a", "r", [0, 0], env, hist);
    hide LexStmt, EvalPath;
    assert [0] + [0] == [0, 0] && "/" + "a" == "/a";
    assert LexAll(Counter(), stmts, 0, [0], env, hist) == Began(env, hist);
    assert [] + [Attempt([0, 0], Some(First(httpMethod)))] == [Attempt([0, 0], Some(First(httpMethod)))];
  }

  /** One iteration: the mutation is answered with a count, which the next fetch asks for. */
  lemma AskRound(httpMethod: string, env: Env, hist: seq<Request>)
    requires hide RunBody, RunOrder, RunWaves, RunNode, RoundStep, FetchOne, Eval, ApplyPipeline; httpMethod != "GET"
    ensures var r := LexAll(Counter(), AskBody(httpMethod), 2, [0], env, hist);
            && r.ctl == Next(None) && r.hist == hist + [First(httpMethod)]
            && r.log == [Attempt([0, 0], Some(First(httpMethod))), Attempt([0, 1], Some(Second(|hist|)))]
  {
    hide RunBody, RunOrder, RunWaves, RunNode, RunLoop, RunMatch, RunTail, NodeStep, RoundStep, LaunchTo, FetchOne,
      Prepare, ApplyPipeline;
    var n, hist1 := Value.Int(|hist|), hist + [First(httpMethod)];
    AskFirst(httpMethod, env, hist);
    var env1 := Insert(env, "r", n);
    assert Eval(Ident("r"), env1, None) == Done(n);
    OneSegment(Param(Ident("r")), n, n.Display(), env1);
    AskStmt("GET", Param(Ident("r")), n.Display(), "s", [0, 1], env1, hist1);
    hide LexStmt, EvalPath, Eval;
    assert [0] + [1] == [0, 1] && hist1 + [] == hist1;
  }

  lemma MutationOfOne(sent: Sent)
    ensures MutationsOf([sent]) == if sent.req.httpMethod != "GET" then [sent.req] else []
  {
    assert [sent][..0] == [];
  }

  /** Two iterations, the second after one mutation. */
  lemma AskRun(httpMethod: string, env: Env)
    requires hide RunBody, RunOrder, RunWaves, RunNode, RoundStep, FetchOne, Eval, ApplyPipeline; httpMethod != "GET"
    ensures var log := LexAll(Counter(), AskTwice(httpMethod), 1, [], env, []).log;
            Attempt([0, 1], Some(Second(0))) in log && Attempt([0, 1], Some(Second(1))) in log
  {
    hide RunBody, RunOrder, RunWaves, RunNode, RunLoop, RunMatch, RunTail, NodeStep, RoundStep, LaunchTo, FetchOne,
      Prepare, EvalPath, ApplyPipeline;
    var w, stmts := Counter(), AskBody(httpMethod);
    var items, es := [Value.Int(1), Value.Int(2)], [Expr.Int(1), Expr.Int(2)];
    ItemsAre(env);
    AskRound(httpMethod, Insert(env, "u", items[0]), []);
    AskRound(httpMethod, Insert(env, "u", items[1]), [First(httpMethod)]);
    hide LexAll, Eval;
    assert !CanReturn(stmts) by {
      assert stmts[1..][1..] == [];
      assert !CanReturn(stmts[1..]);
    }
    hide CanReturn;
    assert [] + [First(httpMethod)] == [First(httpMethod)];
    assert LexLoop(w, "u", stmts, items, 0, [0], env, []) == Began(env, []);
    var one := LexLoop(w, "u", stmts, items, 1, [0], env, []);
    assert one.ctl == Next(None) && one.hist == [First(httpMethod)] && Attempt([0, 1], Some(Second(0))) in one.log;
    var two := LexLoop(w, "u", stmts, items, 2, [0], env, []);
    assert Attempt([0, 1], Some(Second(0))) in two.log && Attempt([0, 1], Some(Second(1))) in two.log;
    OneLoop(httpMethod, env, items);
  }

  lemma ItemsAre(env: Env)
    ensures hide Eval; Eval(AskTwice("")[0].iter, env, None).val == Some(Value.Array([Value.Int(1), Value.Int(2)]))
  {
    var es := [Expr.Int(1), Expr.Int(2)];
    assert es[1..] == [Expr.Int(2)] && es[1..][1..] == [];
    assert EvalElems(es[1..][1..], env, None) == Done([]);
    assert Eval(es[0], env, None) == Done(Value.Int(1)) && Eval(es[1], env, None) == Done(Value.Int(2));
    assert EvalElems(es[1..], env, None) == Done([Value.Int(2)]) by { assert [Value.Int(2)] + [] == [Value.Int(2)]; }
    assert [Value.Int(1)] + [Value.Int(2)] == [Value.Int(1), Value.Int(2)];
  }

  lemma OneLoop(httpMethod: string, env: Env, items: seq<Value>)
    requires hide RunBody, RunOrder, RunWaves, RunNode, RoundStep, FetchOne, Eval, ApplyPipeline;
             items == [Value.Int(1), Value.Int(2)]
    ensures LexAll(Counter(), AskTwice(httpMethod), 1, [], env, []).log
            == LexLoop(Counter(), "u", AskBody(httpMethod), items, 2, [0], env, []).log
  {
    hide RunBody, RunOrder, RunWaves, RunNode, RunLoop, RunMatch, RunTail, NodeStep, RoundStep, LaunchTo, FetchOne,
      Prepare, EvalPath, ApplyPipeline;
    ItemsAre(env);
    hide Eval, LexLoop;
    var s := AskTwice(httpMethod)[0];
    assert [] + [0] == [0];
    assert LexAll(Counter(), AskTwice(httpMethod), 0, [], env, []) == Began(env, []);
    assert LexStmt(Counter(), s, [0], env, []).log == LexLoop(Counter(), "u", AskBody(httpMethod), items, 2, [0], env,
        []).log;
  }

  /** The second fetch is met once, and found not to depend on the loop. */
  lemma AskSite(httpMethod: string) returns (x: Site)
    ensures x in SitesIn(AskTwice(httpMethod), 1, [], CLEAN, []) && x.at == [0, 1] && !x.depends
  {
    var stmts, iter := AskBody(httpMethod), AskTwice(httpMethod)[0].iter;
    var t, frames := Inside("u", iter, CLEAN), [FrameOf("u", iter, CLEAN)];
    assert stmts[0].f.path[1..] == [] && stmts[1].f.path[1..] == [];
    assert InputVars(stmts[0].f, false) == {} && InputVars(stmts[1].f, false) == {"r"};
    hide InputVars;
    var u := PastAll(stmts, 1, t);
    assert PastAll(stmts, 0, t) == t && u == Past(stmts[0], t);
    assert "r" !in u.looped;
    x := Site([0, 1], stmts[1].f, false, frames);
    assert [] + [0] == [0] && [0] + [1] == [0, 1] && [] + frames == frames;
    assert Sites(stmts[1], [0, 1], u, frames) == [x];
    assert x in SitesIn(stmts, 2, [0], t, frames);
    hide PastAll;
    assert Sites(AskTwice(httpMethod)[0], [0], CLEAN, []) == SitesIn(stmts, 2, [0], t, frames);
    assert PastAll(AskTwice(httpMethod), 0, CLEAN) == CLEAN by { NothingPast(AskTwice(httpMethod)); }
    assert SitesIn(AskTwice(httpMethod), 1, [], CLEAN, []) == SitesIn(AskTwice(httpMethod), 0, [], CLEAN,
        []) + Sites(AskTwice(httpMethod)[0], [0], CLEAN, []);
  }

  lemma NothingPast(stmts: seq<Stmt>)
    ensures hide *; PastAll(stmts, 0, CLEAN) == CLEAN
  {
  }

  lemma AskIsPlain(httpMethod: string)
    ensures PlainAll(AskTwice(httpMethod), false) <==> httpMethod == "GET"
  {
    var stmts := AskBody(httpMethod);
    assert stmts[0].f.path[1..] == [] && stmts[1].f.path[1..] == [];
    assert InputVars(stmts[0].f, true) == {} && InputVars(stmts[1].f, true) == {"r"} == InputVars(stmts[1].f, false);
    hide InputVars;
    assert Plain(stmts[0], true) <==> httpMethod == "GET";
    assert Plain(stmts[1], true);
    assert PlainAll(stmts, true) <==> httpMethod == "GET";
    assert Plain(AskTwice(httpMethod)[0], false) <==> httpMethod == "GET";
  }

  /** The result of a mutation bound in a loop counts as not depending on the loop, though every iteration
      may get another one.  The claim holds of these loops exactly when the bound result is that of a GET,
      which is what `PlainFetch` asks for. */
  lemma MutationResultVaries(httpMethod: string)
    ensures Repeats(AskTwice(httpMethod)) <==> httpMethod == "GET"
    ensures Repeats(AskTwice(httpMethod)) <==> PlainAll(AskTwice(httpMethod), false)
  {
    hide RunBody, RunOrder, RunWaves, RunNode, RunLoop, RunMatch, RunTail, NodeStep, RoundStep, LaunchTo, FetchOne,
      Prepare, EvalPath, Eval, ApplyPipeline, LexAll, SitesIn, PlainAll;
    AskIsPlain(httpMethod);
    var stmts := AskTwice(httpMethod);
    if httpMethod == "GET" {
      forall w, env, x, a, b | Executed(w, stmts, env, x, a) && Executed(w, stmts, env, x, b) && !x.depends
          ensures a.req == b.req {
        InvariantFetchRepeats(w, stmts, env, [], x, a, b);
      }
    } else {
      var env := Env(map[], map[]);
      var x := AskSite(httpMethod);
      AskRun(httpMethod, env);
      var a, b := Attempt([0, 1], Some(Second(0))), Attempt([0, 1], Some(Second(1)));
      assert Executed(Counter(), stmts, env, x, a) && Executed(Counter(), stmts, env, x, b);
      assert Second(0).path[1] == '0' && Second(1).path[1] == '1' by { CountsDiffer(); }
    }
  }

  lemma CountsDiffer()
    ensures Value.Int(0).Display() == "0" && Value.Int(1).Display() == "1"
  {
  }
}
