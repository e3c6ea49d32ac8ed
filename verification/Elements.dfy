/** Expressions that do not look at the implicit element, `.field`. */
module Elements {
  import opened Wrappers
  import opened Ast
  import opened Values
  import opened Evaluator

  predicate Elementless(e: Expr)
    decreases e, 1
  {
    hide *;
    match e
    case Str(parts) => ElementlessParts(parts)
    case ImplicitField(_) => false
    case Field(base, _) => Elementless(base)
    case Call(callee, args) =>
      (callee.Field? ==> assert callee.base < e; Elementless(callee.base)) && ElementlessAll(args)
    case Unary(_, rhs) => Elementless(rhs)
    case Binary(_, lhs, rhs) => Elementless(lhs) && Elementless(rhs)
    case Record(_, fields) => ElementlessFields(fields)
    case Array(elems) => ElementlessAll(elems)
    case Spread(inner) => Elementless(inner)
    case Match(scrutinee, arms) => Elementless(scrutinee) && ElementlessArms(arms)
    case _ => true
  }

  predicate ElementlessAll(es: seq<Expr>)
    decreases es, 0
  {
    es == [] || (Elementless(es[0]) && ElementlessAll(es[1..]))
  }

  predicate ElementlessParts(ps: seq<StrPart>)
    decreases ps, 0
  {
    ps == [] || ((ps[0].Interp? ==> assert ps[0].e < ps[0]; Elementless(ps[0].e)) && ElementlessParts(ps[1..]))
  }

  predicate ElementlessFields(fs: seq<FieldInit>)
    decreases fs, 0
  {
    fs == [] || (Elementless(fs[0].value) && ElementlessFields(fs[1..]))
  }

  predicate ElementlessArms(arms: seq<Arm>)
    decreases arms, 0
  {
    arms == []
    || (assert arms[0].body < arms[0];
        (arms[0].body.Value? ==> Elementless(arms[0].body.e)) && ElementlessArms(arms[1..]))
  }

  /** Such an expression has the same value whatever the implicit element is. */
  lemma {:induction false} ElementIgnored(e: Expr, env: Env, x: Option<Value>, y: Option<Value>)
    requires Elementless(e)
    ensures Eval(e, env, x) == Eval(e, env, y)
    decreases e, 1, 0
  {
    hide EvalArms, EvalCall, EvalParts, EvalFields, EvalElems, ApplyBinary, ApplyUnary;
    match e {
      case Str(parts) => PartsIgnore(parts, env, x, y);
      case Field(base, _) => ElementIgnored(base, env, x, y);
      case Call(callee, args) => CallIgnores(callee, args, e, env, x, y);
      case Unary(_, rhs) => ElementIgnored(rhs, env, x, y);
      case Binary(_, lhs, rhs) => ElementIgnored(lhs, env, x, y); ElementIgnored(rhs, env, x, y);
      case Record(_, fields) => FieldsIgnore(fields, env, x, y, []);
      case Array(elems) => ElemsIgnore(elems, env, x, y);
      case Spread(inner) => ElementIgnored(inner, env, x, y);
      case Match(scrutinee, arms) =>
        ElementIgnored(scrutinee, env, x, y);
        var s := Eval(scrutinee, env, x);
        if s.val.Some? { ArmsIgnore(arms, s.val.value, env, x, y); }
      case _ =>
    }
  }

  lemma {:induction false} PartsIgnore(parts: seq<StrPart>, env: Env, x: Option<Value>, y: Option<Value>)
    requires ElementlessParts(parts)
    ensures EvalParts(parts, env, x) == EvalParts(parts, env, y)
    decreases parts, 1, 0
  {
    hide Eval;
    if parts != [] {
      if parts[0].Interp? { assert parts[0].e < parts[0]; ElementIgnored(parts[0].e, env, x, y); }
      PartsIgnore(parts[1..], env, x, y);
    }
  }

  lemma {:induction false} FieldsIgnore(fields: seq<FieldInit>, env: Env, x: Option<Value>, y: Option<Value>,
      acc: seq<Entry>)
    requires ElementlessFields(fields)
    ensures EvalFields(fields, env, x, acc) == EvalFields(fields, env, y, acc)
    decreases fields, 1, 0
  {
    hide Eval;
    if fields != [] {
      ElementIgnored(fields[0].value, env, x, y);
      var v := Eval(fields[0].value, env, x);
      if v.val.Some? { FieldsIgnore(fields[1..], env, x, y, InsertEntry(acc, Entry(fields[0].key, v.val.value))); }
    }
  }

  lemma {:induction false} ElemsIgnore(elems: seq<Expr>, env: Env, x: Option<Value>, y: Option<Value>)
    requires ElementlessAll(elems)
    ensures EvalElems(elems, env, x) == EvalElems(elems, env, y)
    decreases elems, 1, 0
  {
    hide Eval;
    if elems != [] { ElementIgnored(elems[0], env, x, y); ElemsIgnore(elems[1..], env, x, y); }
  }

  lemma {:induction false} FirstIgnores(args: seq<Expr>, env: Env, x: Option<Value>, y: Option<Value>)
    requires ElementlessAll(args)
    ensures EvalFirst(args, env, x) == EvalFirst(args, env, y)
    decreases args, 2, 0
  {
    hide Eval;
    if args != [] { ElementIgnored(args[0], env, x, y); }
  }

  lemma {:induction false} ErrIgnores(args: seq<Expr>, env: Env, x: Option<Value>, y: Option<Value>)
    requires ElementlessAll(args)
    ensures BuildErr(args, env, x) == BuildErr(args, env, y)
    decreases args, 2, 0
  {
    hide Eval;
    if args != [] {
      match args[0] {
        case Ident(_) =>
        case Call(_, inner) =>
          assert Elementless(args[0]);
          FirstIgnores(inner, env, x, y);
        case other => ElementIgnored(other, env, x, y);
      }
    }
  }

  lemma {:induction false} CallIgnores(callee: Expr, args: seq<Expr>, whole: Expr, env: Env, x: Option<Value>,
      y: Option<Value>)
    requires hide *; whole == Call(callee, args) && Elementless(whole)
    ensures EvalCall(callee, args, whole, env, x) == EvalCall(callee, args, whole, env, y)
    decreases whole, 0, 0
  {
    hide Eval;
    FirstIgnores(args, env, x, y);
    ErrIgnores(args, env, x, y);
    if callee.Field? { ElementIgnored(callee.base, env, x, y); }
  }

  lemma {:induction false} ArmsIgnore(arms: seq<Arm>, scrut: Value, env: Env, x: Option<Value>, y: Option<Value>)
    requires ElementlessArms(arms)
    ensures EvalArms(arms, scrut, env, x) == EvalArms(arms, scrut, env, y)
    decreases arms, 1, 0
  {
    hide Eval;
    if arms != [] {
      var binds := MatchPattern(arms[0].pattern, scrut);
      assert arms[0].body < arms[0];
      if binds.None? {
        ArmsIgnore(arms[1..], scrut, env, x, y);
      } else if arms[0].body.Value? {
        ElementIgnored(arms[0].body.e, InsertAll(env, binds.value), x, y);
      }
    }
  }
}
