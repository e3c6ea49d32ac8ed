/** Expressions that print nothing.  A `match` in expression position runs statement blocks,
    and those can log. */
module Quiet {
  import opened Wrappers
  import opened Ast
  import opened Values
  import opened Evaluator
  import opened Ir
  import opened Exec

  predicate Quiet(e: Expr)
    decreases e, 1
  {
    hide *;
    match e
    case Str(parts) => QuietParts(parts)
    case Field(base, _) => Quiet(base)
    case Call(callee, args) => Quiet(callee) && QuietAll(args)
    case Unary(_, rhs) => Quiet(rhs)
    case Binary(_, lhs, rhs) => Quiet(lhs) && Quiet(rhs)
    case Record(_, fields) => QuietFields(fields)
    case Array(elems) => QuietAll(elems)
    case Spread(inner) => Quiet(inner)
    case Lambda(_, body) => Quiet(body)
    case Match(scrutinee, arms) => Quiet(scrutinee) && QuietArms(arms)
    case _ => true
  }

  predicate QuietAll(es: seq<Expr>)
    decreases es, 0
  {
    hide *;
    es == [] || (Quiet(es[0]) && QuietAll(es[1..]))
  }

  predicate QuietParts(ps: seq<StrPart>)
    decreases ps, 0
  {
    hide *;
    ps == [] || ((ps[0].Interp? ==> assert ps[0].e < ps[0]; Quiet(ps[0].e)) && QuietParts(ps[1..]))
  }

  predicate QuietFields(fs: seq<FieldInit>)
    decreases fs, 0
  {
    hide *;
    fs == [] || (Quiet(fs[0].value) && QuietFields(fs[1..]))
  }

  predicate QuietArms(arms: seq<Arm>)
    decreases arms, 0
  {
    hide *;
    arms == []
    || (assert arms[0].body < arms[0];
        (match arms[0].body
         case Value(e) => Quiet(e)
         case Block(stmts) => QuietStmts(stmts)
         case Retry(_) => true)
        && QuietArms(arms[1..]))
  }

  predicate QuietStmts(stmts: seq<Stmt>)
    decreases stmts, 0
  {
    hide *;
    stmts == [] || (QuietStmt(stmts[0]) && QuietStmts(stmts[1..]))
  }

  predicate QuietStmt(s: Stmt)
    decreases s, 0
  {
    hide *;
    match s
    case LetS(_, value) => Quiet(value)
    case LogS(_) => false
    case ReturnS(result) => result.Some? ==> assert result < s; Quiet(result.value)
    case ExprS(expr, _) => Quiet(expr)
    case AssertS(value) => Quiet(value)
    case _ => true
  }

  lemma {:induction false} QuietEval(e: Expr, env: Env, elem: Option<Value>)
    requires Quiet(e)
    ensures Eval(e, env, elem).out == []
    decreases e, 1, 0
  {
    match e {
      case Str(parts) => QuietEvalParts(parts, env, elem);
      case Field(base, _) => QuietEval(base, env, elem);
      case Call(callee, args) => QuietCall(callee, args, e, env, elem);
      case Unary(_, rhs) => QuietEval(rhs, env, elem);
      case Binary(_, lhs, rhs) => QuietEval(lhs, env, elem); QuietEval(rhs, env, elem);
      case Record(_, fields) => QuietEvalFields(fields, env, elem, []);
      case Array(elems) => QuietElems(elems, env, elem);
      case Spread(inner) => QuietEval(inner, env, elem);
      case Match(scrutinee, arms) =>
        QuietEval(scrutinee, env, elem);
        var s := Eval(scrutinee, env, elem);
        if s.val.Some? { QuietEvalArms(arms, s.val.value, env, elem); }
      case _ =>
    }
  }

  lemma {:induction false} QuietEvalParts(parts: seq<StrPart>, env: Env, elem: Option<Value>)
    requires QuietParts(parts)
    ensures EvalParts(parts, env, elem).out == []
    decreases parts, 1, 0
  {
    hide Eval;
    if parts != [] {
      if parts[0].Interp? { assert parts[0].e < parts[0]; QuietEval(parts[0].e, env, elem); }
      QuietEvalParts(parts[1..], env, elem);
    }
  }

  lemma {:induction false} QuietEvalFields(fields: seq<FieldInit>, env: Env, elem: Option<Value>, acc: seq<Entry>)
    requires QuietFields(fields)
    ensures EvalFields(fields, env, elem, acc).out == []
    decreases fields, 1, 0
  {
    hide Eval;
    if fields != [] {
      QuietEval(fields[0].value, env, elem);
      var v := Eval(fields[0].value, env, elem);
      if v.val.Some? {
        QuietEvalFields(fields[1..], env, elem, InsertEntry(acc, Entry(fields[0].key, v.val.value)));
      }
    }
  }

  lemma {:induction false} QuietElems(elems: seq<Expr>, env: Env, elem: Option<Value>)
    requires QuietAll(elems)
    ensures EvalElems(elems, env, elem).out == []
    decreases elems, 1, 0
  {
    hide Eval;
    if elems != [] { QuietEval(elems[0], env, elem); QuietElems(elems[1..], env, elem); }
  }

  lemma {:induction false} QuietFirst(args: seq<Expr>, env: Env, elem: Option<Value>)
    requires QuietAll(args)
    ensures EvalFirst(args, env, elem).out == []
    decreases args, 2, 0
  {
    hide Eval;
    if args != [] { QuietEval(args[0], env, elem); }
  }

  lemma {:induction false} QuietCall(callee: Expr, args: seq<Expr>, whole: Expr, env: Env, elem: Option<Value>)
    requires hide *; whole == Call(callee, args) && Quiet(callee) && QuietAll(args)
    ensures EvalCall(callee, args, whole, env, elem).out == []
    decreases whole, 0, 0
  {
    hide Eval;
    QuietFirst(args, env, elem);
    QuietErr(args, env, elem);
    if callee.Field? {
      QuietEval(callee.base, env, elem);
      var recv := Eval(callee.base, env, elem);
      if recv.val.Some? { QuietEach(args, env, recv.val.value.Items()); }
    }
  }

  lemma {:induction false} QuietErr(args: seq<Expr>, env: Env, elem: Option<Value>)
    requires QuietAll(args)
    ensures BuildErr(args, env, elem).out == []
    decreases args, 2, 0
  {
    hide Eval;
    if args != [] {
      match args[0] {
        case Ident(_) =>
        case Call(_, inner) =>
          assert Quiet(args[0]);
          QuietFirst(inner, env, elem);
        case other => QuietEval(other, env, elem);
      }
    }
  }

  lemma {:induction false} QuietEach(lambda: seq<Expr>, env: Env, items: seq<Value>)
    requires QuietAll(lambda)
    ensures ApplyEach(lambda, env, items).out == []
    decreases lambda, 2, |items|
  {
    hide Eval;
    if items != [] {
      if lambda != [] {
        match lambda[0] {
          case Lambda(param, body) =>
            assert Quiet(lambda[0]);
            QuietEval(body, Insert(env, param, items[0]), Some(items[0]));
          case other => QuietEval(other, env, Some(items[0]));
        }
      }
      QuietEach(lambda, env, items[1..]);
    }
  }

  lemma {:induction false} QuietEvalArms(arms: seq<Arm>, scrut: Value, env: Env, elem: Option<Value>)
    requires QuietArms(arms)
    ensures EvalArms(arms, scrut, env, elem).out == []
    decreases arms, 1, 0
  {
    hide Eval;
    if arms != [] {
      var binds := MatchPattern(arms[0].pattern, scrut);
      assert arms[0].body < arms[0];
      if binds.None? {
        QuietEvalArms(arms[1..], scrut, env, elem);
      } else {
        match arms[0].body {
          case Value(e) => QuietEval(e, InsertAll(env, binds.value), elem);
          case Block(stmts) => QuietBlock(stmts, InsertAll(env, binds.value), Value.Null);
          case Retry(_) =>
        }
      }
    }
  }

  lemma {:induction false} QuietBlock(stmts: seq<Stmt>, env: Env, last: Value)
    requires QuietStmts(stmts)
    ensures RunBlock(stmts, env, last).out == []
    decreases stmts, 1, 0
  {
    hide Eval;
    if stmts != [] {
      var q := QuietStmt(stmts[0]);
      match stmts[0] {
        case LetS(name, value) =>
          assert q == Quiet(value);
          QuietEval(value, env, None);
          var v := Eval(value, env, None);
          if v.val.Some? { QuietBlock(stmts[1..], Insert(env, name, v.val.value), last); }
        case ReturnS(result) =>
          if result.Some? { assert result < stmts[0] && q == Quiet(result.value); QuietEval(result.value, env, None); }
        case ExprS(expr, _) =>
          assert expr < stmts[0] && q == Quiet(expr);
          QuietEval(expr, env, None);
          var v := Eval(expr, env, None);
          if v.val.Some? { QuietBlock(stmts[1..], env, v.val.value); }
        case AssertS(value) =>
          assert value < stmts[0] && q == Quiet(value);
          QuietEval(value, env, None);
          QuietBlock(stmts[1..], env, last);
        case UsingMockS(_) => QuietBlock(stmts[1..], env, last);
        case _ =>
      }
    }
  }

  // ---------- fetches ----------

  predicate QuietOpt(e: Option<Expr>) { hide *; e.Some? ==> Quiet(e.value) }

  predicate QuietPath(path: seq<PathSeg>) {
    hide *;
    path == [] || ((path[0].Param? ==> Quiet(path[0].e)) && QuietPath(path[1..]))
  }

  predicate QuietOps(ops: seq<PipelineOp>) {
    hide *;
    ops == []
    || ((match ops[0]
         case Filter(lambda) => Quiet(lambda)
         case MapOp(lambda) => Quiet(lambda)
         case Limit(count) => Quiet(count)
         case Skip(count) => Quiet(count)
         case Unique(key) => QuietOpt(key)
         case Sum(key) => QuietOpt(key)
         case _ => true)
        && QuietOps(ops[1..]))
  }

  predicate QuietBatch(s: BatchSpec) {
    hide *;
    QuietAll(s.ids) && (s.mapped.Some? ==> Quiet(s.mapped.value.coll) && Quiet(s.mapped.value.key))
  }

  predicate QuietFetch(f: FetchIr) {
    hide *;
    && QuietPath(f.path) && QuietFields(f.params) && QuietOpt(f.body) && QuietOpt(f.idempotencyKey)
    && QuietOps(f.pipeline) && (f.batch.Some? ==> QuietBatch(f.batch.value))
  }

  predicate QuietKind(k: NodeKind) {
    match k
    case FetchN(f) => QuietFetch(f)
    case LetN(e) => Quiet(e)
    case ScatterN(_, _, want) => Quiet(want)
    case _ => true
  }

  lemma {:induction false} QuietEvalPath(path: seq<PathSeg>, env: Env)
    requires QuietPath(path)
    ensures EvalPath(path, env).out == []
  {
    hide Eval;
    if path != [] {
      if path[0].Param? { QuietEval(path[0].e, env, None); }
      QuietEvalPath(path[1..], env);
    }
  }

  lemma {:induction false} QuietParams(params: seq<FieldInit>, env: Env)
    requires QuietFields(params)
    ensures EvalParams(params, env).out == []
  {
    hide Eval;
    if params != [] { QuietEval(params[0].value, env, None); QuietParams(params[1..], env); }
  }

  lemma {:induction false} QuietTexts(es: seq<Expr>, env: Env)
    requires QuietAll(es)
    ensures EvalTexts(es, env).out == []
  {
    hide Eval;
    if es != [] { QuietEval(es[0], env, None); QuietTexts(es[1..], env); }
  }

  lemma {:induction false} QuietKeys(m: MappedIds, items: seq<Value>, env: Env)
    requires Quiet(m.key)
    ensures EvalKeys(m, items, env).out == []
  {
    hide Eval;
    if items != [] {
      QuietEval(m.key, Insert(env, m.loopVar, items[0]), Some(items[0]));
      QuietKeys(m, items[1..], env);
    }
  }

  lemma QuietIds(batch: Option<BatchSpec>, env: Env)
    requires hide *; batch.Some? ==> QuietBatch(batch.value)
    ensures EvalIds(batch, env).out == []
  {
    hide Eval;
    if batch.Some? {
      QuietTexts(batch.value.ids, env);
      if batch.value.mapped.Some? {
        var m := batch.value.mapped.value;
        QuietEval(m.coll, env, None);
        var c := Eval(m.coll, env, None);
        if c.val.Some? { QuietKeys(m, c.val.value.Items(), env); }
      }
    }
  }

  lemma QuietOptEval(e: Option<Expr>, env: Env)
    requires QuietOpt(e)
    ensures EvalOpt(e, env).out == []
  {
    hide Eval;
    if e.Some? { QuietEval(e.value, env, None); }
  }

  lemma QuietPrepare(f: FetchIr, env: Env)
    requires QuietFetch(f)
    ensures Prepare(f, env).out == []
  {
    hide Eval;
    QuietEvalPath(f.path, env);
    QuietParams(f.params, env);
    QuietIds(f.batch, env);
    QuietOptEval(f.body, env);
    QuietOptEval(f.idempotencyKey, env);
  }

  lemma {:induction false} QuietPipeline(v: Value, ops: seq<PipelineOp>, env: Env)
    requires QuietOps(ops)
    ensures ApplyPipeline(v, ops, env).out == []
    decreases |ops|
  {
    if ops != [] {
      match ops[0] {
        case Filter(lambda) => QuietEach([lambda], env, v.Items());
        case MapOp(lambda) => QuietEach([lambda], env, v.Items());
        case Limit(count) => QuietEval(count, env, None);
        case Skip(count) => QuietEval(count, env, None);
        case Unique(key) => QuietKeysOf(key, env, v.Items());
        case Sum(key) => QuietKeysOf(key, env, v.Items());
        case _ =>
      }
      assert ApplyOp(v, ops[0], env).out == [];
      var r := ApplyOp(v, ops[0], env);
      if r.val.Some? { QuietPipeline(r.val.value, ops[1..], env); }
    }
  }

  lemma {:induction false} QuietKeysOf(key: Option<Expr>, env: Env, items: seq<Value>)
    requires QuietOpt(key)
    ensures KeysOf(key, env, items).out == []
  {
    hide Eval;
    if key.Some? && items != [] {
      QuietEval(key.value, env, Some(items[0]));
      QuietKeysOf(key, env, items[1..]);
    }
  }

  /** A quiet fetch prints nothing, before or after its request. */
  lemma QuietFetchOne(w: World, f: FetchIr, env: Env, hist: seq<Request>)
    requires QuietFetch(f)
    ensures FetchOne(w, f, env, hist).before == [] && FetchOne(w, f, env, hist).after == []
  {
    hide Eval, ApplyPipeline;
    QuietPrepare(f, env);
    var plan := Prepare(f, env);
    if plan.val.Some? && plan.val.value.Some? {
      var o := Answer(w, hist, plan.val.value.value);
      if o.Success? { QuietPipeline(o.v, f.pipeline, env); }
    }
  }
}
