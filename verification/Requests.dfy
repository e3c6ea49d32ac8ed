/** What a fetch asks for, and what its outcome leaves. */
module Requests {
  import opened Wrappers
  import opened Ast
  import opened Values
  import opened Evaluator
  import opened Ir
  import opened Exec
  import opened Lowering
  import opened Returns
  import opened Traces

  // ---------- the request ----------

  predicate Shows(e: Expr, env: Env, text: string) {
    hide *;
    var v := Eval(e, env, None).val;
    v.Some? && v.value.Display() == text
  }

  /** A literal segment stands for itself, an expression for the text of its value. */
  predicate PathShown(path: seq<PathSeg>, env: Env, texts: seq<string>) {
    hide *;
    && |texts| == |path|
    && forall i | 0 <= i < |path| ::
         if path[i].Literal? then texts[i] == path[i].text else Shows(path[i].e, env, texts[i])
  }

  predicate ParamsShown(params: seq<FieldInit>, env: Env, query: seq<(string, string)>) {
    hide *;
    && |query| == |params|
    && forall i | 0 <= i < |params| :: query[i].0 == params[i].key && Shows(params[i].value, env, query[i].1)
  }

  predicate TextsShown(es: seq<Expr>, env: Env, texts: seq<string>) {
    hide *;
    |texts| == |es| && forall i | 0 <= i < |es| :: Shows(es[i], env, texts[i])
  }

  function Slashed(texts: seq<string>): string {
    hide *;
    if texts == [] then "" else Slashed(texts[..|texts| - 1]) + "/" + texts[|texts| - 1]
  }

  function Commas(texts: seq<string>): string {
    hide *;
    if |texts| <= 1 then (if texts == [] then "" else texts[0])
    else Commas(texts[..|texts| - 1]) + "," + texts[|texts| - 1]
  }

  lemma {:induction false} SlashedFirst(texts: seq<string>)
    requires hide *; texts != []
    ensures Slashed(texts) == "/" + texts[0] + Slashed(texts[1..])
  {
    if |texts| == 1 {
      assert texts[..0] == [] && texts[1..] == [];
    } else {
      SlashedFirst(texts[..|texts| - 1]);
      assert texts[1..][..|texts| - 2] == texts[..|texts| - 1][1..];
    }
  }

  lemma {:induction false} CommasFirst(texts: seq<string>)
    requires hide *; |texts| > 1
    ensures Commas(texts) == texts[0] + "," + Commas(texts[1..])
  {
    if |texts| == 2 {
      assert texts[..1] == [texts[0]] && texts[1..] == [texts[1]];
      assert Commas([texts[0]]) == texts[0] && Commas([texts[1]]) == texts[1];
    } else {
      var m, t, last := texts[..|texts| - 1], texts[1..], texts[|texts| - 1];
      CommasFirst(m);
      assert t[..|t| - 1] == m[1..] && t[|t| - 1] == last;
      assert (m[0] + "," + Commas(m[1..])) + "," + last == m[0] + "," + (Commas(m[1..]) + "," + last);
    }
  }

  lemma {:induction false} JoinedByCommas(texts: seq<string>)
    ensures hide *; Join(texts) == Commas(texts)
  {
    if |texts| > 1 {
      CommasFirst(texts);
      JoinedByCommas(texts[1..]);
    }
  }

  lemma {:induction false} PathSpelled(path: seq<PathSeg>, env: Env, texts: seq<string>)
    requires hide *; PathShown(path, env, texts)
    ensures EvalPath(path, env).val == Some(Slashed(texts))
  {
    hide Eval;
    if path != [] {
      forall i | 0 <= i < |path| - 1 ensures path[1..][i] == path[i + 1] && texts[1..][i] == texts[i + 1] {}
      PathSpelled(path[1..], env, texts[1..]);
      SlashedFirst(texts);
    }
  }

  lemma {:induction false} ParamsSpelled(params: seq<FieldInit>, env: Env, query: seq<(string, string)>)
    requires hide *; ParamsShown(params, env, query)
    ensures EvalParams(params, env).val == Some(multiset(query))
  {
    hide Eval;
    if params != [] {
      forall i | 0 <= i < |params| - 1 ensures params[1..][i] == params[i + 1] && query[1..][i] == query[i + 1] {}
      ParamsSpelled(params[1..], env, query[1..]);
      assert query == [query[0]] + query[1..];
    }
  }

  lemma {:induction false} TextsSpelled(es: seq<Expr>, env: Env, texts: seq<string>)
    requires hide *; TextsShown(es, env, texts)
    ensures EvalTexts(es, env).val == Some(texts)
  {
    hide Eval;
    if es != [] {
      forall i | 0 <= i < |es| - 1 ensures es[1..][i] == es[i + 1] && texts[1..][i] == texts[i + 1] {}
      TextsSpelled(es[1..], env, texts[1..]);
      assert texts == [texts[0]] + texts[1..];
    }
  }

  predicate OptionShown(e: Option<Expr>, env: Env, v: Option<Value>) {
    hide *;
    if e.None? then v == None else v.Some? && Eval(e.value, env, None).val == v
  }

  /** The identifiers a fixed batch asks for; none without a batch. */
  predicate IdsShown(batch: Option<BatchSpec>, env: Env, ids: seq<string>) {
    hide *;
    if batch.None? then ids == [] else batch.value.mapped.None? && TextsShown(batch.value.ids, env, ids)
  }

  /** A request carries its method, its endpoint, its segments after slashes, its parameters together with the
      identifiers of its batch under the declared name, its body and its idempotency key. */
  lemma RequestSpelled(f: FetchIr, env: Env, texts: seq<string>, query: seq<(string, string)>, ids: seq<string>,
      body: Option<Value>, key: Option<Value>)
    requires hide Eval, EvalPath, EvalParams, Prepare, FetchOne, LowerBody;
             PathShown(f.path, env, texts) && ParamsShown(f.params, env, query) && IdsShown(f.batch, env, ids)
    requires OptionShown(f.body, env, body) && OptionShown(f.idempotencyKey, env, key)
    ensures Prepare(f, env).val == Some(Some(Request(
              f.httpMethod,
              f.endpoint,
              if texts == [] then "/" else Slashed(texts),
              multiset(query + if ids == [] then [] else [(f.batch.value.queryParam, Commas(ids))]),
              body,
              if key.None? then None else Some(key.value.Display()))))
  {
    hide Eval, EvalPath, EvalParams, EvalTexts;
    PathSpelled(f.path, env, texts);
    ParamsSpelled(f.params, env, query);
    if f.batch.Some? { TextsSpelled(f.batch.value.ids, env, ids); }
    JoinedByCommas(ids);
    assert query + [] == query;
  }

  // ---------- the outcome ----------

  /** What an outcome binds: a failure, or a success that breaks the declared type, is an error; it is a value
      only where the declared type is `Result<...>`.  A success goes through the pipeline. */
  lemma OutcomeBinds(w: World, f: FetchIr, env: Env, hist: seq<Request>, req: Request)
    requires hide *; Prepare(f, env).val == Some(Some(req))
    ensures var one := FetchOne(w, f, env, hist);
            var o := if f.httpMethod == "GET" then w.get(req) else w.mutate(hist, req);
            && one.sent == Some(Sent(req, f.latency))
            && (forall e :: o == Failure(e) ==> one.val == if f.asResult then Some(Value.Err(e)) else None)
            && (forall v, t, e :: o == Success(v) && f.contract == Some(t) && w.violation(v, t) == Some(e)
                  ==> one.val == if f.asResult then Some(Value.Err(e)) else None)
            && (forall v :: o == Success(v) && (f.contract.Some? ==> w.violation(v, f.contract.value).None?) ==>
                  var x := ApplyPipeline(v, f.pipeline, env).val;
                  if x.None? then one.val == None
                  else one.val == Some(if f.asResult then Value.Ok(x.value) else x.value))
  {
    hide ApplyPipeline, EvalPath, EvalParams, EvalIds, EvalOpt;
    assert req.httpMethod == f.httpMethod;
  }

  /** The type declared with the binding is a `Result`. */
  predicate DeclaresResult(f: FetchStmt) {
    hide *;
    f.bind.Some? && f.bind.value.ty.Some? && f.bind.value.ty.value.Generic? && f.bind.value.ty.value.name == "Result"
  }

  function DeclaredName(f: FetchStmt): Option<string> { if f.bind.Some? then Some(f.bind.value.name) else None }

  /** Where a `Result` is declared, a failing request binds its error and the body goes on; elsewhere the body
      fails there.  An answer of the declared type is bound, wrapped where a `Result` is declared. */
  lemma FetchStatement(p: Prog, fuel: nat, stmts: seq<Stmt>, j: nat, f: FetchStmt, env: Env, hist: seq<Request>,
      req: Request)
    requires hide *; j < |Ungrouped(stmts, |stmts|)| && Ungrouped(stmts, |stmts|)[j] == FetchS(f)
    requires j < |LowerBody(stmts).nodes| && LowerBody(stmts).nodes[j].kind.FetchN?
    requires var r := RunOrder(p, fuel, LowerBody(stmts), j, env, hist);
             r.ctl.Next? && Prepare(LowerBody(stmts).nodes[j].kind.f, r.env).val == Some(Some(req))
    ensures var b := LowerBody(stmts);
            var r, s := RunOrder(p, fuel, b, j, env, hist), RunOrder(p, fuel, b, j + 1, env, hist);
            var o := if f.httpMethod == "GET" then p.world.get(req)
                     else p.world.mutate(hist + Mutations(r.evs), req);
            && (forall e :: o == Failure(e) ==>
                  if DeclaresResult(f) then s.ctl == r.ctl && Holds(r.env, DeclaredName(f), Value.Err(e), s.env)
                  else s.ctl.Fail? && s.env == r.env)
            && (forall v :: o == Success(v) && f.pipeline == [] && (f.bind.None? || f.bind.value.ty.None?
                              || p.world.violation(v, f.bind.value.ty.value).None?) ==>
                  s.ctl == r.ctl
                  && Holds(r.env, DeclaredName(f), if DeclaresResult(f) then Value.Ok(v) else v, s.env))
            && exists before: seq<string>, after: seq<string> ::
                 s.evs == r.evs + Prints(before) + [Round([Sent(req, None)])] + Prints(after)
  {
    hide LowerBody, RunNode, NodeStep, Prepare, Ungrouped, FetchOne, ApplyPipeline, Eval, RoundStep;
    LoweredInOrder(stmts);
    var b := LowerBody(stmts);
    var n := b.nodes[j];
    FetchNodeOf(n, f);
    hide IsNodeOf, DeclaresResult;
    var r := RunOrder(p, fuel, b, j, env, hist);
    OutcomeBinds(p.world, n.kind.f, r.env, hist + Mutations(r.evs), req);
    SingleRound(p, b, j, r, hist);
    assert RunOrder(p, fuel, b, j + 1, env, hist) == RoundStep(p, b, [j], [j], r, hist);
    hide RunOrder;
    forall v ensures ApplyPipeline(v, [], r.env).val == Some(v) { NoPipeline(v, r.env); }
  }

  lemma FetchNodeOf(n: Node, f: FetchStmt)
    requires hide *; IsNodeOf(n, FetchS(f))
    ensures n.kind.FetchN? && n.binding == DeclaredName(f) && n.kind.f.httpMethod == f.httpMethod
    ensures n.kind.f.pipeline == f.pipeline && n.kind.f.latency == None
    ensures n.kind.f.contract == (if f.bind.Some? then f.bind.value.ty else None)
    ensures n.kind.f.asResult <==> DeclaresResult(f)
  {
    hide LowerBody, CanReturn, AreArmsOf;
    if DeclaresResult(f) { assert n.kind.f.contract == Some(Generic("Result", f.bind.value.ty.value.args)); }
  }

  lemma NoPipeline(v: Value, env: Env)
    ensures hide *; ApplyPipeline(v, [], env).val == Some(v)
  {
    hide Eval, ApplyOp;
  }
}
