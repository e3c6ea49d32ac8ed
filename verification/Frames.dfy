/** Free variables, and the frame property they are computed for.

    `exact == false` is the compiler's own analysis.  `exact == true` is what evaluation really
    depends on: it also counts `$NAME` (looked up in the environment first) and removes only
    the names a match captures, which are those of the first argument of each constructor. */
module Frames {
  import opened Wrappers
  import opened Ast
  import opened Values
  import opened Evaluator

  function FreeVars(e: Expr): set<string> { Vars(e, false) }

  function Vars(e: Expr, exact: bool): set<string>
    decreases e, 1
  {
    hide *;
    match e
    case Ident(name) => {name}
    case EnvVar(name) => if exact then {name} else {}
    case Int(_) => {}
    case Bool(_) => {}
    case Null => {}
    case Duration(_) => {}
    case ImplicitField(_) => {}
    case Str(parts) => PartsVars(parts, exact)
    case Field(base, _) => Vars(base, exact)
    case Call(callee, args) => Vars(callee, exact) + ExprsVars(args, exact)
    case Unary(_, rhs) => Vars(rhs, exact)
    case Binary(_, lhs, rhs) => Vars(lhs, exact) + Vars(rhs, exact)
    case Record(_, fields) => FieldsVars(fields, exact)
    case Array(elems) => ExprsVars(elems, exact)
    case Spread(inner) => Vars(inner, exact)
    case Lambda(param, body) => Vars(body, exact) - {param}
    case Match(scrutinee, arms) => Vars(scrutinee, exact) + ArmsVars(arms, exact)
    case Range(lo, hi) => Vars(lo, exact) + Vars(hi, exact)
  }

  function ExprsVars(es: seq<Expr>, exact: bool): set<string>
    decreases es, 0
  {
    hide *;
    if es == [] then {} else Vars(es[0], exact) + ExprsVars(es[1..], exact)
  }

  function PartsVars(ps: seq<StrPart>, exact: bool): set<string>
    decreases ps, 0
  {
    hide *;
    if ps == [] then {}
    else (match ps[0] case Lit(_) => {} case Interp(e) => assert e < ps[0]; Vars(e, exact)) + PartsVars(ps[1..], exact)
  }

  function FieldsVars(fs: seq<FieldInit>, exact: bool): set<string>
    decreases fs, 0
  {
    hide *;
    if fs == [] then {} else Vars(fs[0].value, exact) + FieldsVars(fs[1..], exact)
  }

  function ArmsVars(arms: seq<Arm>, exact: bool): set<string>
    decreases arms, 0
  {
    hide *;
    if arms == [] then {}
    else
      assert arms[0].body < arms[0];
      (ArmBodyVars(arms[0].body, exact) - (if exact then Captures(arms[0].pattern) else PatternBinds(arms[0].pattern)))
      + ArmsVars(arms[1..], exact)
  }

  function ArmBodyVars(b: ArmBody, exact: bool): set<string>
    decreases b, 0
  {
    hide *;
    match b
    case Value(e) => Vars(e, exact)
    case Block(stmts) => StmtsVars(stmts, exact)
    case Retry(effects) => EffectsVars(effects, exact)
  }

  function EffectsVars(effects: seq<Effect>, exact: bool): set<string>
    decreases effects, 0
  {
    hide *;
    if effects == [] then {}
    else assert effects[0].e < effects[0]; Vars(effects[0].e, exact) + EffectsVars(effects[1..], exact)
  }

  function StmtsVars(stmts: seq<Stmt>, exact: bool): set<string>
    decreases stmts, 0
  {
    hide *;
    if stmts == [] then {} else StmtVars(stmts[0], exact) + StmtsVars(stmts[1..], exact)
  }

  function StmtVars(s: Stmt, exact: bool): set<string>
    decreases s, 0
  {
    hide *;
    match s
    case FetchS(f) => assert f < s; PathVars(f.path, exact) + FieldsVars(f.params, exact) + OpsVars(f.pipeline, exact)
    case LetS(_, value) => Vars(value, exact)
    case LogS(value) => Vars(value, exact)
    case AssertS(value) => Vars(value, exact)
    case ReturnS(result) => if result.None? then {} else assert result < s; Vars(result.value, exact)
    case ExprS(expr, _) => Vars(expr, exact)
    case ParallelS(stmts) => StmtsVars(stmts, exact)
    case ForEachS(loopVar, iter, stmts) => Vars(iter, exact) + (StmtsVars(stmts, exact) - {loopVar})
    case UsingMockS(_) => {}
  }

  function PathVars(path: seq<PathSeg>, exact: bool): set<string>
    decreases path, 0
  {
    hide *;
    if path == [] then {}
    else
      (match path[0] case Literal(_) => {} case Param(e) => assert e < path[0]; Vars(e, exact))
      + PathVars(path[1..], exact)
  }

  function OpsVars(ops: seq<PipelineOp>, exact: bool): set<string>
    decreases ops, 0
  {
    hide *;
    if ops == [] then {} else OpVars(ops[0], exact) + OpsVars(ops[1..], exact)
  }

  function OpVars(op: PipelineOp, exact: bool): set<string>
    decreases op, 0
  {
    hide *;
    match op
    case Filter(lambda) => Vars(lambda, exact)
    case MapOp(lambda) => Vars(lambda, exact)
    case Limit(count) => Vars(count, exact)
    case Skip(count) => Vars(count, exact)
    case Unique(key) => if key.None? then {} else assert key < op; Vars(key.value, exact)
    case Sum(key) => if key.None? then {} else assert key < op; Vars(key.value, exact)
    case _ => {}
  }

  /** The names a successful match of `p` binds. */
  function Captures(p: Pattern): set<string> {
    match p
    case Wildcard => {}
    case Binding(name) => {name}
    case Ctor(name, args) =>
      if args == [] then {}
      else if name == "Err" then
        (match args[0]
         case Ctor(_, inner) => if inner == [] then {} else Captures(inner[0])
         case Binding(b) => {b}
         case Wildcard => {})
      else if name == "Ok" || name == "Some" then Captures(args[0])
      else {}
  }

  lemma {:induction false} MatchCaptures(p: Pattern, v: Value)
    ensures MatchPattern(p, v).Some? ==> MatchPattern(p, v).value.Keys == Captures(p)
  {
    match p {
      case Wildcard =>
      case Binding(_) =>
      case Ctor(name, args) =>
        if args != [] {
          if name == "Err" && v.Err? {
            if args[0].Ctor? && args[0].args != [] {
              MatchCaptures(args[0].args[0], Payload(v.err));
            }
          } else if name == "Ok" && v.Ok? {
            MatchCaptures(args[0], v.inner);
          } else if name == "Some" {
            MatchCaptures(args[0], v);
          }
        }
    }
  }

  // ---------- agreement of environments ----------

  ghost predicate Agree(a: Env, b: Env, names: set<string>) {
    a.os == b.os && forall x | x in names :: Lookup(a, x) == Lookup(b, x)
  }

  lemma AgreeInsert(a: Env, b: Env, names: set<string>, name: string, v: Value)
    requires Agree(a, b, names - {name})
    ensures Agree(Insert(a, name, v), Insert(b, name, v), names)
  {
    forall x | x in names
      ensures Lookup(Insert(a, name, v), x) == Lookup(Insert(b, name, v), x)
    {
      if x != name { assert x in names - {name} && Lookup(a, x) == Lookup(b, x); }
    }
  }

  lemma AgreeInsertAll(a: Env, b: Env, names: set<string>, binds: map<string, Value>)
    requires Agree(a, b, names - binds.Keys)
    ensures Agree(InsertAll(a, binds), InsertAll(b, binds), names)
  {
    forall x | x in names
      ensures Lookup(InsertAll(a, binds), x) == Lookup(InsertAll(b, binds), x)
    {
      if x !in binds { assert x in names - binds.Keys && Lookup(a, x) == Lookup(b, x); }
    }
  }

  // ---------- the frame property ----------

  /** Evaluation depends on nothing but the variables `Vars(e, true)`: same value, same output,
      same failure. */
  lemma {:induction false} EvalFrame(e: Expr, a: Env, b: Env, elem: Option<Value>)
    requires Agree(a, b, Vars(e, true))
    ensures Eval(e, a, elem) == Eval(e, b, elem)
    decreases e, 1, 0
  {
    hide *;
    if e.Str? || e.Call? || e.Record? || e.Array? {
      ListedFrame(e, a, b, elem);
    } else if e.Binary? || e.Match? {
      SteppedFrame(e, a, b, elem);
    } else {
      PlainFrame(e, a, b, elem);
    }
  }

  lemma {:induction false} PlainFrame(e: Expr, a: Env, b: Env, elem: Option<Value>)
    requires Agree(a, b, Vars(e, true))
    requires !e.Str? && !e.Call? && !e.Record? && !e.Array? && !e.Binary? && !e.Match?
    ensures Eval(e, a, elem) == Eval(e, b, elem)
    decreases e, 0, 1
  {
    if e.Ident? || e.EnvVar? {
      assert Lookup(a, e.name) == Lookup(b, e.name);
    } else if e.Field? {
      EvalFrame(e.base, a, b, elem);
    } else if e.Unary? {
      EvalFrame(e.rhs, a, b, elem);
    } else if e.Spread? {
      EvalFrame(e.inner, a, b, elem);
    }
  }

  /** Expressions that evaluate a list of others. */
  lemma {:induction false} ListedFrame(e: Expr, a: Env, b: Env, elem: Option<Value>)
    requires Agree(a, b, Vars(e, true)) && (e.Str? || e.Call? || e.Record? || e.Array?)
    ensures Eval(e, a, elem) == Eval(e, b, elem)
    decreases e, 0, 1
  {
    hide EvalParts, EvalFields, EvalElems, EvalCall;
    if e.Str? {
      PartsFrame(e.parts, a, b, elem);
    } else if e.Call? {
      CallFrame(e.callee, e.args, e, a, b, elem);
    } else if e.Record? {
      FieldsFrame(e.fields, a, b, elem, []);
    } else {
      ElemsFrame(e.elems, a, b, elem);
    }
  }

  /** Expressions that go on from the value of their first part. */
  lemma {:induction false} SteppedFrame(e: Expr, a: Env, b: Env, elem: Option<Value>)
    requires Agree(a, b, Vars(e, true)) && (e.Binary? || e.Match?)
    ensures Eval(e, a, elem) == Eval(e, b, elem)
    decreases e, 0, 1
  {
    hide EvalArms, ApplyBinary;
    if e.Binary? {
      EvalFrame(e.lhs, a, b, elem);
      EvalFrame(e.rhs, a, b, elem);
    } else {
      EvalFrame(e.scrutinee, a, b, elem);
      var s := Eval(e.scrutinee, a, elem);
      if s.val.Some? { ArmsFrame(e.arms, s.val.value, a, b, elem); }
    }
  }

  lemma {:induction false} PartsFrame(parts: seq<StrPart>, a: Env, b: Env, elem: Option<Value>)
    requires Agree(a, b, PartsVars(parts, true))
    ensures EvalParts(parts, a, elem) == EvalParts(parts, b, elem)
    decreases parts, 1, 0
  {
    hide Eval, Vars;
    if parts != [] {
      if parts[0].Interp? { assert parts[0].e < parts[0]; EvalFrame(parts[0].e, a, b, elem); }
      PartsFrame(parts[1..], a, b, elem);
    }
  }

  lemma {:induction false} FieldsFrame(fields: seq<FieldInit>, a: Env, b: Env, elem: Option<Value>, acc: seq<Entry>)
    requires Agree(a, b, FieldsVars(fields, true))
    ensures EvalFields(fields, a, elem, acc) == EvalFields(fields, b, elem, acc)
    decreases fields, 1, 0
  {
    hide Eval, Vars;
    if fields != [] {
      EvalFrame(fields[0].value, a, b, elem);
      var v := Eval(fields[0].value, a, elem);
      if v.val.Some? {
        FieldsFrame(fields[1..], a, b, elem, InsertEntry(acc, Entry(fields[0].key, v.val.value)));
      }
    }
  }

  lemma {:induction false} ElemsFrame(elems: seq<Expr>, a: Env, b: Env, elem: Option<Value>)
    requires Agree(a, b, ExprsVars(elems, true))
    ensures EvalElems(elems, a, elem) == EvalElems(elems, b, elem)
    decreases elems, 1, 0
  {
    hide Eval, Vars;
    if elems != [] {
      EvalFrame(elems[0], a, b, elem);
      ElemsFrame(elems[1..], a, b, elem);
    }
  }

  lemma {:induction false} FirstFrame(args: seq<Expr>, a: Env, b: Env, elem: Option<Value>)
    requires Agree(a, b, ExprsVars(args, true))
    ensures EvalFirst(args, a, elem) == EvalFirst(args, b, elem)
    decreases args, 2, 0
  {
    hide Eval, Vars;
    if args != [] { EvalFrame(args[0], a, b, elem); }
  }

  lemma {:induction false} CallFrame(callee: Expr, args: seq<Expr>, whole: Expr, a: Env, b: Env, elem: Option<Value>)
    requires hide *; whole == Call(callee, args)
    requires Agree(a, b, Vars(callee, true) + ExprsVars(args, true))
    ensures EvalCall(callee, args, whole, a, elem) == EvalCall(callee, args, whole, b, elem)
    decreases whole, 0, 0
  {
    hide Eval;
    FirstFrame(args, a, b, elem);
    ErrFrame(args, a, b, elem);
    if callee.Field? {
      EvalFrame(callee.base, a, b, elem);
      var recv := Eval(callee.base, a, elem);
      if recv.val.Some? { EachFrame(args, a, b, recv.val.value.Items()); }
    }
  }

  lemma {:induction false} ErrFrame(args: seq<Expr>, a: Env, b: Env, elem: Option<Value>)
    requires Agree(a, b, ExprsVars(args, true))
    ensures BuildErr(args, a, elem) == BuildErr(args, b, elem)
    decreases args, 2, 0
  {
    hide Eval;
    if args != [] {
      match args[0] {
        case Ident(_) =>
        case Call(callee, inner) =>
          assert Vars(args[0], true) == Vars(callee, true) + ExprsVars(inner, true);
          FirstFrame(inner, a, b, elem);
        case other => EvalFrame(other, a, b, elem);
      }
    }
  }

  lemma {:induction false} LambdaFrame(lambda: Expr, a: Env, b: Env, item: Value)
    requires Agree(a, b, Vars(lambda, true))
    ensures ApplyLambda(lambda, a, item) == ApplyLambda(lambda, b, item)
    decreases lambda, 2, 0
  {
    hide Eval;
    match lambda {
      case Lambda(param, body) =>
        AgreeInsert(a, b, Vars(body, true), param, item);
        EvalFrame(body, Insert(a, param, item), Insert(b, param, item), Some(item));
      case other => EvalFrame(other, a, b, Some(item));
    }
  }

  lemma {:induction false} EachFrame(lambda: seq<Expr>, a: Env, b: Env, items: seq<Value>)
    requires Agree(a, b, ExprsVars(lambda, true))
    ensures ApplyEach(lambda, a, items) == ApplyEach(lambda, b, items)
    decreases lambda, 2, |items|
  {
    hide Eval, Vars;
    if items != [] {
      if lambda != [] { LambdaFrame(lambda[0], a, b, items[0]); }
      EachFrame(lambda, a, b, items[1..]);
    }
  }

  lemma {:induction false} ArmsFrame(arms: seq<Arm>, scrut: Value, a: Env, b: Env, elem: Option<Value>)
    requires Agree(a, b, ArmsVars(arms, true))
    ensures EvalArms(arms, scrut, a, elem) == EvalArms(arms, scrut, b, elem)
    decreases arms, 1, 0
  {
    hide Eval, Vars;
    if arms != [] {
      var binds := MatchPattern(arms[0].pattern, scrut);
      if binds.None? {
        ArmsFrame(arms[1..], scrut, a, b, elem);
      } else {
        MatchCaptures(arms[0].pattern, scrut);
        AgreeInsertAll(a, b, ArmBodyVars(arms[0].body, true), binds.value);
        assert arms[0].body < arms[0];
        match arms[0].body {
          case Value(e) => EvalFrame(e, InsertAll(a, binds.value), InsertAll(b, binds.value), elem);
          case Block(stmts) => BlockFrame(stmts, InsertAll(a, binds.value), InsertAll(b, binds.value), Value.Null);
          case Retry(_) =>
        }
      }
    }
  }

  lemma {:induction false} BlockFrame(stmts: seq<Stmt>, a: Env, b: Env, last: Value)
    requires Agree(a, b, StmtsVars(stmts, true))
    ensures RunBlock(stmts, a, last) == RunBlock(stmts, b, last)
    decreases stmts, 1, 0
  {
    hide Vars, Eval, Done;
    if stmts != [] {
      var uses := StmtVars(stmts[0], true);
      match stmts[0] {
        case LetS(name, value) =>
          assert uses == Vars(value, true);
          EvalFrame(value, a, b, None);
          var v := Eval(value, a, None);
          if v.val.Some? {
            AgreeInsert(a, b, StmtsVars(stmts[1..], true), name, v.val.value);
            BlockFrame(stmts[1..], Insert(a, name, v.val.value), Insert(b, name, v.val.value), last);
          }
        case LogS(value) =>
          assert value < stmts[0] && uses == Vars(value, true);
          EvalFrame(value, a, b, None);
          BlockFrame(stmts[1..], a, b, last);
        case ReturnS(result) =>
          if result.Some? { assert result < stmts[0]
              && uses == Vars(result.value, true); EvalFrame(result.value, a, b, None); }
        case ExprS(expr, _) =>
          assert expr < stmts[0] && uses == Vars(expr, true);
          EvalFrame(expr, a, b, None);
          var v := Eval(expr, a, None);
          if v.val.Some? { BlockFrame(stmts[1..], a, b, v.val.value); }
        case AssertS(value) =>
          assert value < stmts[0] && uses == Vars(value, true);
          EvalFrame(value, a, b, None);
          BlockFrame(stmts[1..], a, b, last);
        case UsingMockS(_) => BlockFrame(stmts[1..], a, b, last);
        case _ =>
      }
    }
  }

  lemma {:induction false} PipelineFrame(v: Value, ops: seq<PipelineOp>, a: Env, b: Env)
    requires Agree(a, b, OpsVars(ops, true))
    ensures ApplyPipeline(v, ops, a) == ApplyPipeline(v, ops, b)
    decreases |ops|
  {
    if ops != [] {
      OpFrame(v, ops[0], a, b);
      var r := ApplyOp(v, ops[0], a);
      if r.val.Some? { PipelineFrame(r.val.value, ops[1..], a, b); }
    }
  }

  lemma {:induction false} OpFrame(v: Value, op: PipelineOp, a: Env, b: Env)
    requires Agree(a, b, OpVars(op, true))
    ensures ApplyOp(v, op, a) == ApplyOp(v, op, b)
  {
    hide Vars, Eval;
    match op {
      case Filter(lambda) => EachFrame([lambda], a, b, v.Items());
      case MapOp(lambda) => EachFrame([lambda], a, b, v.Items());
      case Limit(count) => EvalFrame(count, a, b, None);
      case Skip(count) => EvalFrame(count, a, b, None);
      case Unique(key) => KeysFrame(key, a, b, v.Items());
      case Sum(key) => KeysFrame(key, a, b, v.Items());
      case _ =>
    }
  }

  lemma {:induction false} KeysFrame(key: Option<Expr>, a: Env, b: Env, items: seq<Value>)
    requires hide *; key.Some? ==> Agree(a, b, Vars(key.value, true))
    ensures KeysOf(key, a, items) == KeysOf(key, b, items)
  {
    hide Eval, Vars;
    if key.Some? && items != [] {
      EvalFrame(key.value, a, b, Some(items[0]));
      KeysFrame(key, a, b, items[1..]);
    }
  }

  // ---------- where the compiler's analysis falls short ----------

  /** No `$NAME`, and every pattern captures all the names it mentions. */
  lemma FreeVarsSuffice(e: Expr, a: Env, b: Env, elem: Option<Value>)
    requires Vars(e, true) <= FreeVars(e)
    requires Agree(a, b, FreeVars(e))
    ensures Eval(e, a, elem) == Eval(e, b, elem)
  {
    hide Eval, Vars;
    EvalFrame(e, a, b, elem);
  }

  /** `$TOKEN` reads a variable `TOKEN`, which the free variables leave out. */
  lemma DollarNameEscapes()
    ensures exists e: Expr, a: Env, b: Env ::
              Agree(a, b, FreeVars(e)) && Eval(e, a, None) != Eval(e, b, None)
  {
    var e, a, b := EnvVar("TOKEN"), Env(map["TOKEN" := Value.Int(1)], map[]), Env(map[], map[]);
    assert Agree(a, b, FreeVars(e)) && Eval(e, a, None) != Eval(e, b, None);
  }

  /** `match r { Ok(x, y) => y }` */
  function SecondArgument(): Expr {
    Match(Ident("r"), [Arm(Ctor("Ok", [Binding("x"), Binding("y")]), ArmBody.Value(Ident("y")))])
  }

  lemma SecondArgumentVars()
    ensures FreeVars(SecondArgument()) == {"r"}
  {
    hide MatchPattern;
    var p, arms := Ctor("Ok", [Binding("x"), Binding("y")]), SecondArgument().arms;
    assert arms[1..] == [];
    assert p.args[1..] == [Binding("y")] && PatternsBinds(p.args[1..][1..]) == {};
    assert "y" in PatternsBinds(p.args[1..]);
    assert "y" in PatternBinds(p);
    assert ArmsVars(arms, false) == {};
    assert Vars(Ident("r"), false) == {"r"};
    assert FreeVars(SecondArgument()) == {"r"} + {};
  }

  lemma SecondArgumentValue(env: Env, v: Value)
    requires Lookup(env, "r") == Some(Value.Ok(Value.Null)) && Lookup(env, "y") == Some(v)
    ensures Eval(SecondArgument(), env, None).val == Some(v)
  {
    var p, r, arms := Ctor("Ok", [Binding("x"), Binding("y")]), Value.Ok(Value.Null), SecondArgument().arms;
    assert MatchPattern(p, r) == Some(map["x" := Value.Null]);
    assert Lookup(InsertAll(env, map["x" := Value.Null]), "y") == Some(v);
    assert Eval(Ident("r"), env, None) == Done(r);
    assert EvalArms(arms, r, env, None) == Done(v);
  }

  /** `Ok(x, y) => y` captures only `x`, so the arm still reads the outer `y`. */
  lemma SecondArgumentEscapes()
    ensures exists e: Expr, a: Env, b: Env ::
              Agree(a, b, FreeVars(e)) && Eval(e, a, None) != Eval(e, b, None)
  {
    hide Vars, Eval;
    var e, r := SecondArgument(), Value.Ok(Value.Null);
    var a, b := Env(map["r" := r, "y" := Value.Int(1)], map[]), Env(map["r" := r, "y" := Value.Int(2)], map[]);
    SecondArgumentVars();
    SecondArgumentValue(a, Value.Int(1));
    SecondArgumentValue(b, Value.Int(2));
    assert Agree(a, b, FreeVars(e)) && Eval(e, a, None) != Eval(e, b, None);
  }
}
